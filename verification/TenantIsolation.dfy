/** The shared store simulates one private store per tenant, whatever the others do.
 */
module TenantIsolation {
  import opened Metadata
  import opened Names
  import opened TenantStores
  import opened Wrappers

  // ------------------------------------------------------------------ where a tenant's objects are

  /** The upstream key of an object the tenant knows by `k`, the namespace spelled without the prefix. */
  function Image(t: TenantId, k: Key): Key {
    match k
    case Cluster(kind, name) => Cluster(kind, AddTenantIDPrefix(t, name))
    case In(kind, ns, name) => In(kind, AddTenantIDPrefix(t, ns), name)
  }

  predicate Owns(t: TenantId, k: Key) {
    match k
    case Cluster(_, name) => Carries(t, name)
    case In(_, ns, _) => Carries(t, ns)
  }

  lemma ImageComesBack(t: TenantId, k: Key)
    ensures Owns(t, Image(t, k)) && ToTenant(t, Image(t, k)) == k
  {
  }

  lemma OwnedIsImage(t: TenantId, k: Key)
    requires Owns(t, k)
    ensures Image(t, ToTenant(t, k)) == k
  {
  }

  lemma ImageIsInjective(t: TenantId, a: Key, b: Key)
    ensures Image(t, a) == Image(t, b) <==> a == b
  {
    ImageComesBack(t, a);
    ImageComesBack(t, b);
  }

  lemma OneOwner(t: TenantId, u: TenantId, k: Key)
    requires Owns(t, k) && Owns(u, k)
    ensures t == u
  {
    PrefixesAreDisjoint(t, u, if k.Cluster? then k.name else k.namespace);
  }

  /** A request is sent to the image of what it names, whichever spelling of the namespace it uses. */
  lemma RequestsReachTheImage(t: TenantId, k: Key)
    requires k.In? ==> k.namespace != ""
    ensures ToUpstream(t, k) == Image(t, Canonical(t, k))
  {
  }

  // ------------------------------------------------------------------ the invariant

  predicate KeyOk(k: Key) {
    (k.In? <==> k.kind.namespaced) && k.name != "" && (k.In? ==> k.namespace != "")
  }

  /** And what is in a namespace is in a namespace that is there. */
  ghost predicate StoreOk(store: Store) {
    && (forall k :: k in store ==> KeyOk(k))
    && (forall n :: NamespaceKey(n) in store ==> LabelledByName(n, store[NamespaceKey(n)].labels))
    && (forall k :: k in store && k.In? ==> NamespaceKey(k.namespace) in store)
  }

  /** What a tenant sees under a name. */
  function Seen(p: Platform, t: TenantId, store: Store, k: Key): Option<Object> {
    var up := At(store, Image(t, k));
    if up.Some? then Some(View(p, t, up.value)) else None
  }

  /** The private store holds what the tenant sees of the shared one. */
  ghost predicate Simulates(p: Platform, t: TenantId, store: Store, own: Store) {
    forall k: Key {:trigger At(own, k)} :: At(own, k) == Seen(p, t, store, k)
  }

  ghost predicate RequestOk(r: Request) {
    match r
    case Get(k) => KeyOk(k)
    case Create(k, _) => KeyOk(k)
    case Update(k, _) => KeyOk(k)
    case Delete(k) => KeyOk(k)
    case List(kind, namespace) => namespace.Some? ==> kind.namespaced && namespace.value != ""
  }

  // ------------------------------------------------------------------ objects come back

  lemma VisibleOfForward(p: Platform, t: TenantId, k: Key, o: Object)
    requires Sane(p)
    ensures View(p, t, Forward(p, t, k, o)) == Own(p, k, o)
  {
  }

  /** A stored object of the tenant's is in a namespace that resolves to itself in both spellings. */
  lemma StoredNamespaceIsPlain(t: TenantId, store: Store, k: Key)
    requires StoreOk(store) && k.In? && NamespaceKey(AddTenantIDPrefix(t, k.namespace)) in store
    ensures k.namespace != "" && !Carries(t, k.namespace)
  {
    TrimUndoesAdd(t, k.namespace);
    assert LabelledByName(AddTenantIDPrefix(t, k.namespace), store[NamespaceKey(AddTenantIDPrefix(t, k.namespace))].labels);
  }

  /** The answer about a stored object is spelled as the caller spelled the request. */
  lemma AnswersAreEchoed(t: TenantId, requested: string, k: Key)
    requires k.In? && requested != "" && k.namespace == TrimTenantIDPrefix(t, requested)
    requires k.namespace != "" && !Carries(t, k.namespace)
    ensures Echoed(t, Some(requested), ToTenant(t, Image(t, k))) == Spelled(Some(requested), k)
  {
  }

  lemma AnswerIsEchoed(t: TenantId, store: Store, k: Key)
    requires StoreOk(store) && KeyOk(k)
    requires k.In? ==> NamespaceKey(ToUpstream(t, k).namespace) in store
    ensures Echoed(t, Requested(k), ToTenant(t, ToUpstream(t, k))) == Spelled(Requested(k), Canonical(t, k))
  {
  }

  // ------------------------------------------------------------------ what writing does

  lemma PutSimulates(p: Platform, t: TenantId, store: Store, own: Store, k: Key, up: Object, o: Object)
    requires Simulates(p, t, store, own) && View(p, t, up) == o
    ensures Simulates(p, t, store[Image(t, k) := up], own[k := o])
  {
    var later, ownLater := store[Image(t, k) := up], own[k := o];
    forall j: Key ensures At(ownLater, j) == Seen(p, t, later, j) {
      ImageIsInjective(t, j, k);
      assert At(own, j) == Seen(p, t, store, j);
    }
  }

  lemma WithoutSimulates(p: Platform, t: TenantId, store: Store, own: Store, k: Key)
    requires Simulates(p, t, store, own)
    ensures Simulates(p, t, Without(store, Image(t, k)), Without(own, k))
  {
    var later, ownLater := Without(store, Image(t, k)), Without(own, k);
    forall j: Key ensures At(ownLater, j) == Seen(p, t, later, j) {
      ImageIsInjective(t, j, k);
      if j.In? {
        ImageIsInjective(t, NamespaceKey(j.namespace), k);
      }
      assert At(own, j) == Seen(p, t, store, j);
    }
  }

  lemma WithoutStaysOk(store: Store, k: Key)
    requires StoreOk(store)
    ensures StoreOk(Without(store, k))
  {
  }

  lemma StampedNamespaceIsOk(p: Platform, t: TenantId, n: string, o: Object)
    requires n != "" && !Carries(t, n)
    ensures LabelledByName(AddTenantIDPrefix(t, n), Forward(p, t, NamespaceKey(n), o).labels)
  {
    var name := AddTenantIDPrefix(t, n);
    TrimUndoesAdd(t, n);
    forall u: TenantId | Carries(u, name) ensures u == t {
      PrefixesAreDisjoint(u, t, name);
    }
  }

  lemma PutStaysOk(store: Store, k: Key, o: Object)
    requires StoreOk(store) && KeyOk(k) && (k.In? ==> NamespaceKey(k.namespace) in store)
    requires IsNamespace(k) ==> LabelledByName(k.name, o.labels)
    ensures StoreOk(store[k := o])
  {
  }

  // ------------------------------------------------------------------ the tenant's own requests

  /** The two clusters answer alike, and what they hold still agrees. */
  ghost predicate Agree(p: Platform, t: TenantId, up: Reply, own: Reply) {
    up.answer == own.answer && StoreOk(up.store) && Simulates(p, t, up.store, own.store)
  }

  lemma GetAgrees(p: Platform, t: TenantId, store: Store, own: Store, k: Key)
    requires Sane(p) && StoreOk(store) && Simulates(p, t, store, own) && KeyOk(k)
    ensures Agree(p, t, Gateway(p, t, store, Get(k)), Alone(p, t, own, Get(k)))
  {
    RequestsReachTheImage(t, k);
    assert At(own, Canonical(t, k)) == Seen(p, t, store, Canonical(t, k));
    if ToUpstream(t, k) in store {
      AnswerIsEchoed(t, store, k);
    }
  }

  lemma DeleteAgrees(p: Platform, t: TenantId, store: Store, own: Store, k: Key)
    requires Sane(p) && StoreOk(store) && Simulates(p, t, store, own) && KeyOk(k)
    ensures Agree(p, t, Gateway(p, t, store, Delete(k)), Alone(p, t, own, Delete(k)))
  {
    RequestsReachTheImage(t, k);
    assert At(own, Canonical(t, k)) == Seen(p, t, store, Canonical(t, k));
    if ToUpstream(t, k) in store {
      AnswerIsEchoed(t, store, k);
      WithoutStaysOk(store, ToUpstream(t, k));
      WithoutSimulates(p, t, store, own, Canonical(t, k));
    }
  }

  /** A namespace the tenant names is there exactly if its image is. */
  lemma NamespaceIsThere(p: Platform, t: TenantId, store: Store, own: Store, k: Key)
    requires Simulates(p, t, store, own) && KeyOk(k) && k.In?
    ensures NamespaceKey(Canonical(t, k).namespace) in own <==> NamespaceKey(ToUpstream(t, k).namespace) in store
  {
    RequestsReachTheImage(t, k);
    var home := NamespaceKey(Canonical(t, k).namespace);
    assert At(own, home) == Seen(p, t, store, home);
  }

  lemma CreatedIsOk(p: Platform, t: TenantId, store: Store, k: Key, o: Object)
    requires StoreOk(store) && KeyOk(k) && Admitted(t, k, o)
    requires k.In? ==> NamespaceKey(ToUpstream(t, k).namespace) in store
    ensures StoreOk(store[ToUpstream(t, k) := Forward(p, t, k, o)])
  {
    if IsNamespace(k) {
      StampedNamespaceIsOk(p, t, k.name, o);
    }
    PutStaysOk(store, ToUpstream(t, k), Forward(p, t, k, o));
  }

  lemma CreateAgrees(p: Platform, t: TenantId, store: Store, own: Store, k: Key, o: Object)
    requires Sane(p) && StoreOk(store) && Simulates(p, t, store, own) && KeyOk(k)
    ensures Agree(p, t, Gateway(p, t, store, Create(k, o)), Alone(p, t, own, Create(k, o)))
  {
    var c, up := Canonical(t, k), ToUpstream(t, k);
    RequestsReachTheImage(t, k);
    assert At(own, c) == Seen(p, t, store, c);
    if k.In? {
      NamespaceIsThere(p, t, store, own, k);
    }
    if Admitted(t, k, o) && up !in store && (k.In? ==> NamespaceKey(up.namespace) in store) {
      AnswerIsEchoed(t, store, k);
      VisibleOfForward(p, t, k, o);
      PutSimulates(p, t, store, own, c, Forward(p, t, k, o), Own(p, k, o));
      CreatedIsOk(p, t, store, k, o);
    }
  }

  /** What an update restores of the stored labels is the platform's, so the update is never refused, and the
      tenant sees of it exactly what it wrote. */
  lemma RestoredIsAdmitted(p: Platform, t: TenantId, store: Store, k: Key, o: Object)
    requires Sane(p) && StoreOk(store) && KeyOk(k) && ToUpstream(t, k) in store
    ensures var restored := o.(labels := Visible(p.hides, o.labels) + Hidden(p.hides, store[ToUpstream(t, k)].labels));
            Admitted(t, k, restored) && Own(p, k, restored) == Own(p, k, o)
  {
    SplitsBack(p.hides, o.labels, store[ToUpstream(t, k)].labels);
    if IsNamespace(k) {
      TrimUndoesAdd(t, k.name);
      assert LabelledByName(AddTenantIDPrefix(t, k.name), store[NamespaceKey(AddTenantIDPrefix(t, k.name))].labels);
    }
  }

  lemma UpdateAgrees(p: Platform, t: TenantId, store: Store, own: Store, k: Key, o: Object)
    requires Sane(p) && StoreOk(store) && Simulates(p, t, store, own) && KeyOk(k)
    ensures Agree(p, t, Gateway(p, t, store, Update(k, o)), Alone(p, t, own, Update(k, o)))
  {
    var c, up := Canonical(t, k), ToUpstream(t, k);
    RequestsReachTheImage(t, k);
    assert At(own, c) == Seen(p, t, store, c);
    if up in store {
      var restored := o.(labels := Visible(p.hides, o.labels) + Hidden(p.hides, store[up].labels));
      RestoredIsAdmitted(p, t, store, k, o);
      AnswerIsEchoed(t, store, k);
      VisibleOfForward(p, t, k, restored);
      PutSimulates(p, t, store, own, c, Forward(p, t, k, restored), Own(p, k, o));
      CreatedIsOk(p, t, store, k, restored);
    }
  }

  function OwnNamespace(t: TenantId, namespace: Option<string>): Option<string> {
    if namespace.Some? then Some(TrimTenantIDPrefix(t, namespace.value)) else None
  }

  /** What a list gathers upstream is what the tenant's own cluster would have listed. */
  lemma GatheredIsSelected(p: Platform, t: TenantId, store: Store, own: Store, kind: Kind, namespace: Option<string>, k: Key)
    requires StoreOk(store) && Simulates(p, t, store, own) && RequestOk(List(kind, namespace))
    requires Gathered(t, store, kind, namespace, k)
    ensures var j := ToTenant(t, k);
            && At(own, j) == Some(View(p, t, store[k])) && Selected(kind, OwnNamespace(t, namespace), j)
            && Echoed(t, namespace, j) == Spelled(namespace, j)
  {
    if k.In? {
      assert LabelledByName(k.namespace, store[NamespaceKey(k.namespace)].labels);
      if namespace.Some? {
        UpstreamNamespaceResolves(t, namespace.value, namespace.value);
      }
    }
    OwnedIsImage(t, k);
    var j := ToTenant(t, k);
    assert At(own, j) == Seen(p, t, store, j);
    if k.In? && namespace.Some? {
      StoredNamespaceIsPlain(t, store, j);
      AnswersAreEchoed(t, namespace.value, j);
    }
  }

  lemma SelectedIsGathered(p: Platform, t: TenantId, store: Store, own: Store, kind: Kind, namespace: Option<string>, j: Key)
    requires StoreOk(store) && Simulates(p, t, store, own) && RequestOk(List(kind, namespace))
    requires j in own && Selected(kind, OwnNamespace(t, namespace), j)
    ensures Gathered(t, store, kind, namespace, Image(t, j)) && ToTenant(t, Image(t, j)) == j
  {
    ImageComesBack(t, j);
    assert At(own, j) == Seen(p, t, store, j);
    if j.In? {
      var ns := AddTenantIDPrefix(t, j.namespace);
      assert LabelledByName(ns, store[NamespaceKey(ns)].labels);
      if namespace.Some? && Carries(t, namespace.value) {
        AddUndoesTrim(t, namespace.value);
      }
    }
  }

  /** What a list answers, upstream's items converted one by one, and the own cluster's. */
  function Converted(p: Platform, t: TenantId, store: Store, kind: Kind, namespace: Option<string>): set<(Key, Object)> {
    var items := set k | k in store && Gathered(t, store, kind, namespace, k) :: (k, store[k]);
    set i | i in items :: (Echoed(t, namespace, ToTenant(t, i.0)), View(p, t, i.1))
  }

  function OwnItems(t: TenantId, own: Store, kind: Kind, namespace: Option<string>): set<(Key, Object)> {
    var items := set k | k in own && Selected(kind, OwnNamespace(t, namespace), k) :: (k, own[k]);
    set i | i in items :: (Spelled(namespace, i.0), i.1)
  }

  lemma InConvertedIff(p: Platform, t: TenantId, store: Store, kind: Kind, namespace: Option<string>, x: (Key, Object))
    ensures x in Converted(p, t, store, kind, namespace)
            <==> exists k {:trigger ToTenant(t, k)} :: Gathered(t, store, kind, namespace, k)
                   && x == (Echoed(t, namespace, ToTenant(t, k)), View(p, t, store[k]))
  {
  }

  lemma InOwnItemsIff(t: TenantId, own: Store, kind: Kind, namespace: Option<string>, x: (Key, Object))
    ensures x in OwnItems(t, own, kind, namespace)
            <==> exists k :: k in own && Selected(kind, OwnNamespace(t, namespace), k) && x == (Spelled(namespace, k), own[k])
  {
  }

  lemma SameItems(p: Platform, t: TenantId, store: Store, own: Store, kind: Kind, namespace: Option<string>, x: (Key, Object))
    requires StoreOk(store) && Simulates(p, t, store, own) && RequestOk(List(kind, namespace))
    ensures x in Converted(p, t, store, kind, namespace) <==> x in OwnItems(t, own, kind, namespace)
  {
    InConvertedIff(p, t, store, kind, namespace, x);
    InOwnItemsIff(t, own, kind, namespace, x);
    if x in Converted(p, t, store, kind, namespace) {
      var k :| Gathered(t, store, kind, namespace, k) && x == (Echoed(t, namespace, ToTenant(t, k)), View(p, t, store[k]));
      GatheredIsSelected(p, t, store, own, kind, namespace, k);
    }
    if x in OwnItems(t, own, kind, namespace) {
      var j :| j in own && Selected(kind, OwnNamespace(t, namespace), j) && x == (Spelled(namespace, j), own[j]);
      SelectedIsGathered(p, t, store, own, kind, namespace, j);
      GatheredIsSelected(p, t, store, own, kind, namespace, Image(t, j));
    }
  }

  lemma ListAgrees(p: Platform, t: TenantId, store: Store, own: Store, kind: Kind, namespace: Option<string>)
    requires Sane(p) && StoreOk(store) && Simulates(p, t, store, own) && RequestOk(List(kind, namespace))
    ensures Agree(p, t, Gateway(p, t, store, List(kind, namespace)), Alone(p, t, own, List(kind, namespace)))
  {
    var up, alone := Converted(p, t, store, kind, namespace), OwnItems(t, own, kind, namespace);
    forall x ensures x in up <==> x in alone {
      SameItems(p, t, store, own, kind, namespace, x);
    }
    assert up == alone;
    assert Gateway(p, t, store, List(kind, namespace)).answer == Many(up);
    assert Alone(p, t, own, List(kind, namespace)).answer == Many(alone);
  }

  /** Whatever a tenant asks, it is answered what a cluster of its own would have answered. */
  lemma RequestAgrees(p: Platform, t: TenantId, store: Store, own: Store, r: Request)
    requires Sane(p) && StoreOk(store) && Simulates(p, t, store, own) && RequestOk(r)
    ensures Agree(p, t, Gateway(p, t, store, r), Alone(p, t, own, r))
  {
    match r
    case Get(k) => GetAgrees(p, t, store, own, k);
    case Create(k, o) => CreateAgrees(p, t, store, own, k, o);
    case Update(k, o) => UpdateAgrees(p, t, store, own, k, o);
    case Delete(k) => DeleteAgrees(p, t, store, own, k);
    case List(kind, namespace) => ListAgrees(p, t, store, own, kind, namespace);
  }

  // ------------------------------------------------------------------ everybody else's requests

  /** A tenant's request changes nothing outside what that tenant owns. */
  lemma RequestTouchesOnlyOwn(p: Platform, u: TenantId, store: Store, r: Request, k: Key)
    requires RequestOk(r) && !Owns(u, k)
    ensures At(Gateway(p, u, store, r).store, k) == At(store, k)
  {
  }

  /** So no other tenant can tell that it was made. */
  lemma OthersAreNotDisturbed(p: Platform, t: TenantId, u: TenantId, store: Store, own: Store, r: Request)
    requires t != u && RequestOk(r) && Simulates(p, t, store, own)
    ensures Simulates(p, t, Gateway(p, u, store, r).store, own)
  {
    var later := Gateway(p, u, store, r).store;
    forall k: Key ensures At(own, k) == Seen(p, t, later, k) {
      ImageComesBack(t, k);
      if Owns(u, Image(t, k)) {
        OneOwner(t, u, Image(t, k));
      }
      RequestTouchesOnlyOwn(p, u, store, r, Image(t, k));
      assert At(own, k) == Seen(p, t, store, k);
    }
  }

  /** The platform's own requests: on what no tenant owns, labelling no namespace as a tenant's. What it writes
      into the tenants' namespaces, the copies of bindings and the quotas among it, is not among them. */
  ghost predicate PlatformRequestOk(r: Request) {
    && RequestOk(r)
    && (!r.List? ==> forall t: TenantId :: !Owns(t, r.key))
    && (r.Create? || r.Update? ==> IsNamespace(r.key) ==> TENANT_LABEL !in r.value.labels)
  }

  lemma PlatformDisturbsNobody(p: Platform, t: TenantId, store: Store, own: Store, r: Request)
    requires PlatformRequestOk(r) && StoreOk(store) && Simulates(p, t, store, own)
    ensures StoreOk(Serve(store, r).store) && Simulates(p, t, Serve(store, r).store, own)
  {
    var later := Serve(store, r).store;
    forall k: Key ensures At(own, k) == Seen(p, t, later, k) {
      ImageComesBack(t, k);
      assert At(own, k) == Seen(p, t, store, k);
      PlatformTouchesNothingOwned(t, store, r, Image(t, k));
    }
    PlatformStaysOk(store, r);
  }

  lemma PlatformTouchesNothingOwned(t: TenantId, store: Store, r: Request, k: Key)
    requires PlatformRequestOk(r) && Owns(t, k)
    ensures At(Serve(store, r).store, k) == At(store, k)
  {
    if !r.List? {
      assert !Owns(t, r.key);
    }
  }

  lemma PlatformStaysOk(store: Store, r: Request)
    requires PlatformRequestOk(r) && StoreOk(store)
    ensures StoreOk(Serve(store, r).store)
  {
    match r
    case Get(_) =>
    case Create(k, o) =>
      if k !in store && (k.In? ==> NamespaceKey(k.namespace) in store) {
        PlatformNamespaceIsOk(k, o);
        PutStaysOk(store, k, o);
      }
    case Update(k, o) =>
      if k in store {
        PlatformNamespaceIsOk(k, o);
        PutStaysOk(store, k, o);
      }
    case Delete(k) => WithoutStaysOk(store, k);
    case List(_, _) =>
  }

  lemma PlatformNamespaceIsOk(k: Key, o: Object)
    requires forall t: TenantId :: !Owns(t, k)
    requires IsNamespace(k) ==> TENANT_LABEL !in o.labels
    ensures IsNamespace(k) ==> LabelledByName(k.name, o.labels)
  {
    if IsNamespace(k) {
      forall t: TenantId ensures !Carries(t, k.name) {
        assert !Owns(t, k);
      }
    }
  }

  // ------------------------------------------------------------------ any interleaving

  datatype Step = ByTenant(t: TenantId, request: Request) | ByPlatform(request: Request)

  ghost predicate StepsOk(steps: seq<Step>) {
    forall i :: 0 <= i < |steps| ==>
      if steps[i].ByTenant? then RequestOk(steps[i].request) else PlatformRequestOk(steps[i].request)
  }

  function Taken(p: Platform, store: Store, step: Step): Reply {
    match step
    case ByTenant(t, r) => Gateway(p, t, store, r)
    case ByPlatform(r) => Serve(store, r)
  }

  /** The shared store after the first `i` steps. */
  function StoreAfter(p: Platform, store: Store, steps: seq<Step>, i: nat): Store
    requires i <= |steps|
    decreases i
  {
    if i == 0 then store else Taken(p, StoreAfter(p, store, steps, i - 1), steps[i - 1]).store
  }

  /** The store the tenant would have, had it been alone. */
  function OwnAfter(p: Platform, t: TenantId, own: Store, steps: seq<Step>, i: nat): Store
    requires i <= |steps|
    decreases i
  {
    if i == 0 then own
    else
      var before := OwnAfter(p, t, own, steps, i - 1);
      if steps[i - 1].ByTenant? && steps[i - 1].t == t then Alone(p, t, before, steps[i - 1].request).store else before
  }

  lemma {:induction false} SimulatesThroughout(p: Platform, t: TenantId, store: Store, own: Store, steps: seq<Step>, i: nat)
    requires Sane(p) && StoreOk(store) && Simulates(p, t, store, own) && StepsOk(steps) && i <= |steps|
    ensures StoreOk(StoreAfter(p, store, steps, i))
    ensures Simulates(p, t, StoreAfter(p, store, steps, i), OwnAfter(p, t, own, steps, i))
    decreases i
  {
    if i > 0 {
      SimulatesThroughout(p, t, store, own, steps, i - 1);
      var before, ownBefore := StoreAfter(p, store, steps, i - 1), OwnAfter(p, t, own, steps, i - 1);
      StepSimulates(p, t, before, ownBefore, steps[i - 1]);
    }
  }

  lemma StepSimulates(p: Platform, t: TenantId, store: Store, own: Store, step: Step)
    requires Sane(p) && StoreOk(store) && Simulates(p, t, store, own)
    requires if step.ByTenant? then RequestOk(step.request) else PlatformRequestOk(step.request)
    ensures StoreOk(Taken(p, store, step).store)
    ensures Simulates(p, t, Taken(p, store, step).store,
              if step.ByTenant? && step.t == t then Alone(p, t, own, step.request).store else own)
  {
    match step
    case ByPlatform(r) => PlatformDisturbsNobody(p, t, store, own, r);
    case ByTenant(u, r) =>
      if u == t {
        RequestAgrees(p, t, store, own, r);
      } else {
        OthersAreNotDisturbed(p, t, u, store, own, r);
        GatewayStaysOk(p, u, store, r);
      }
  }

  /** Everybody has a private store that the shared one simulates. */
  function PrivateStore(p: Platform, t: TenantId, store: Store): (own: Store)
    ensures Simulates(p, t, store, own)
  {
    var mine := set k | k in store && Owns(t, k) :: ToTenant(t, k);
    var own := map j | j in mine && Image(t, j) in store :: View(p, t, store[Image(t, j)]);
    assert Simulates(p, t, store, own) by {
      forall j: Key ensures At(own, j) == Seen(p, t, store, j) {
        ImageComesBack(t, j);
        assert Image(t, j) in store ==> ToTenant(t, Image(t, j)) in mine;
      }
    }
    own
  }

  lemma GatewayStaysOk(p: Platform, u: TenantId, store: Store, r: Request)
    requires Sane(p) && StoreOk(store) && RequestOk(r)
    ensures StoreOk(Gateway(p, u, store, r).store)
  {
    RequestAgrees(p, u, store, PrivateStore(p, u, store), r);
  }

  /** For any number of tenants, and any interleaving of their requests with one another's and with the
      platform's, each of a tenant's requests is answered as if the tenant had been alone, on a store of its
      own, from the beginning. */
  lemma TenantsCannotTellTheyShare(p: Platform, t: TenantId, store: Store, steps: seq<Step>, i: nat)
    requires Sane(p) && StoreOk(store) && StepsOk(steps) && i < |steps| && steps[i].ByTenant? && steps[i].t == t
    ensures Taken(p, StoreAfter(p, store, steps, i), steps[i]).answer
            == Alone(p, t, OwnAfter(p, t, PrivateStore(p, t, store), steps, i), steps[i].request).answer
  {
    var own := PrivateStore(p, t, store);
    SimulatesThroughout(p, t, store, own, steps, i);
    RequestAgrees(p, t, StoreAfter(p, store, steps, i), OwnAfter(p, t, own, steps, i), steps[i].request);
  }

  /** And the invariant on namespaces holds throughout. A server-side apply is not among the requests: it is
      forwarded leaf by leaf, and a repeated one loses the label (`Apply.RepeatedApplyLosesTheLabel`). */
  lemma NamespacesStayLabelled(p: Platform, steps: seq<Step>, i: nat, n: string, t: TenantId)
    requires Sane(p) && StepsOk(steps) && i <= |steps| && NamespaceKey(n) in StoreAfter(p, map[], steps, i)
    ensures var labels := StoreAfter(p, map[], steps, i)[NamespaceKey(n)].labels;
            Carries(t, n) <==> TENANT_LABEL in labels && labels[TENANT_LABEL] == t
  {
    SimulatesThroughout(p, t, map[], map[], steps, i);
    assert LabelledByName(n, StoreAfter(p, map[], steps, i)[NamespaceKey(n)].labels);
  }
}
