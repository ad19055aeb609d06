/** The cache of custom resource serving information (cmd/kubezoo/app/customresource_handler.go).

An informer keeps the lister up to date and queues an event for every change; one goroutine handles the
events in order; any number of lookups fill the cache, one at a time under the lock. Entries are keyed
by the uid of the CRD they were built from, and built from the tenant's view of it.
 */
module CrdCache {
  import opened Names
  import opened Wrappers

  type Uid = nat

  datatype Name = Name(plural: string, group: string)

  /** A CRD as the upstream cluster stores it; `body` is the rest of its spec. */
  datatype Crd = Crd(uid: Uid, name: Name, body: string, accepted: string)

  /** What an entry remembers of the CRD it was built from: the spec and the accepted names. */
  datatype Info = Info(name: Name, body: string, accepted: string)

  function AsIs(c: Crd): Info {
    Info(c.name, c.body, c.accepted)
  }

  // ------------------------------------------------------------------ the tenant's view

  /** Which CRDs the platform shares, under their own names. */
  type Sharing = Name -> bool

  function UpstreamName(shared: Sharing, t: TenantId, n: Name): Name {
    if shared(n) then n else n.(group := AddTenantIDPrefix(t, n.group))
  }

  /** getTenantCRD: the CRD a tenant means by a name, and its view of it. */
  function TenantCrd(shared: Sharing, lister: map<Name, Crd>, t: TenantId, n: Name): Option<(Uid, Info)> {
    var name := UpstreamName(shared, t, n);
    if name !in lister then None
    else if shared(n) then Some((lister[name].uid, AsIs(lister[name])))
    else if !StartsWith(lister[name].name.group, t) then None
    else
      var c := lister[name];
      Some((c.uid, Info(c.name.(group := TrimTenantIDPrefix(t, c.name.group)), c.body, c.accepted)))
  }

  ghost predicate Prefixed(n: Name) {
    exists t: TenantId :: Carries(t, n.group)
  }

  /** No shared CRD is spelled like a tenant's. */
  ghost predicate Sane(shared: Sharing) {
    forall n: Name :: shared(n) ==> !Prefixed(n)
  }

  /** The view of a CRD, whoever may look it up. */
  function Shown(shared: Sharing, c: Crd): Info {
    if shared(c.name) || |c.name.group| <= TENANT_ID_LENGTH then AsIs(c)
    else AsIs(c).(name := c.name.(group := c.name.group[TENANT_ID_LENGTH + 1..]))
  }

  ghost predicate ListerOk(lister: map<Name, Crd>) {
    forall n :: n in lister ==> lister[n].name == n
  }

  /** Whoever finds a CRD sees the same view of it, under the name it asked for; a CRD the platform does
      not share is found by at most one tenant. */
  lemma TenantCrdIsShown(shared: Sharing, lister: map<Name, Crd>, t: TenantId, n: Name)
    requires Sane(shared) && ListerOk(lister)
    ensures var found, name := TenantCrd(shared, lister, t, n), UpstreamName(shared, t, n);
            && (found.Some? <==> name in lister)
            && (found.Some? ==> found.value == (lister[name].uid, Shown(shared, lister[name])) && found.value.1.name == n)
            && (shared(name) <==> shared(n))
            && (!shared(n) ==> Carries(t, name.group) && forall u: TenantId :: Carries(u, name.group) ==> u == t)
  {
    if !shared(n) {
      var name := UpstreamName(shared, t, n);
      TrimUndoesAdd(t, n.group);
      assert Prefixed(name);
      assert name.group[..TENANT_ID_LENGTH] == t;
      forall u: TenantId | Carries(u, name.group) ensures u == t {
        PrefixesAreDisjoint(u, t, name.group);
      }
    }
  }

  // ------------------------------------------------------------------ the informer

  datatype Event = Added(crd: Crd) | Updated(before: Crd, after: Crd) | Deleted

  /** The goroutine that handles events: between events, or in the middle of removeDeadStorage, which
      lists the CRDs before it takes the lock. */
  datatype Handler = Idle | Sweeping(live: set<Uid>)

  /** The informer's side; `born` is the name every uid was issued for, and uids are never issued again. */
  datatype World = World(lister: map<Name, Crd>, born: map<Uid, Name>, queue: seq<Event>, handler: Handler)

  function Uids(lister: map<Name, Crd>): set<Uid> {
    set n | n in lister :: lister[n].uid
  }

  predicate Known(born: map<Uid, Name>, c: Crd) {
    c.uid in born && born[c.uid] == c.name
  }

  predicate EventOk(born: map<Uid, Name>, e: Event) {
    match e
    case Added(c) => Known(born, c)
    case Updated(before, after) => Known(born, before) && Known(born, after)
    case Deleted => true
  }

  ghost predicate WorldOk(w: World) {
    && ListerOk(w.lister)
    && (forall n :: n in w.lister ==> Known(w.born, w.lister[n]))
    && (forall i :: 0 <= i < |w.queue| ==> EventOk(w.born, w.queue[i]))
  }

  predicate Live(w: World, u: Uid) {
    u in w.born && w.born[u] in w.lister && w.lister[w.born[u]].uid == u
  }

  /** What happens to the CRDs: the informer stores it and queues an event, in this order. */
  datatype Change = Create(crd: Crd) | Modify(crd: Crd) | Recreate(crd: Crd) | Remove(name: Name)

  predicate Possible(w: World, change: Change) {
    match change
    case Create(c) => c.uid !in w.born && c.name !in w.lister
    case Modify(c) => c.name in w.lister && w.lister[c.name].uid == c.uid
    case Recreate(c) => c.uid !in w.born && c.name in w.lister
    case Remove(n) => n in w.lister
  }

  function Changed(w: World, change: Change): World
    requires Possible(w, change)
  {
    match change
    case Create(c) =>
      w.(lister := w.lister[c.name := c], born := w.born[c.uid := c.name], queue := w.queue + [Added(c)])
    case Modify(c) =>
      w.(lister := w.lister[c.name := c], queue := w.queue + [Updated(w.lister[c.name], c)])
    case Recreate(c) =>
      w.(lister := w.lister[c.name := c], born := w.born[c.uid := c.name],
         queue := w.queue + [Updated(w.lister[c.name], c)])
    case Remove(n) =>
      w.(lister := w.lister - {n}, queue := w.queue + [Deleted])
  }

  // ------------------------------------------------------------------ the handlers

  type Cache = map<Uid, Info>

  function Evicted(cache: Cache, u: Uid): Cache {
    cache - {u}
  }

  /** The entry stays only if the stored form of the new CRD is what the entry remembers. */
  function Refreshed(cache: Cache, before: Crd, after: Crd): Cache {
    var left := if before.uid != after.uid then Evicted(cache, before.uid) else cache;
    if after.uid in left && left[after.uid] == AsIs(after) then left else Evicted(left, after.uid)
  }

  function Swept(cache: Cache, live: set<Uid>): Cache {
    map u | u in cache && u in live :: cache[u]
  }

  function Filled(cache: Cache, u: Uid, info: Info): Cache {
    if u in cache then cache else cache[u := info]
  }

  /** One map of entries. A published one is read without the lock, and may be read for as long as a
      request that has loaded it lasts. */
  class StorageMap {
    var entries: Cache

    constructor (entries: Cache)
      ensures this.entries == entries
    {
      this.entries := entries;
    }

    method Clone() returns (copy: StorageMap)
      ensures fresh(copy) && copy.entries == entries
    {
      copy := new StorageMap(entries);
    }
  }

  /** The handler. Its methods may write to the handler and to nothing that was there before: whatever map
      a reader has loaded stays as it was. */
  class CrdHandler {
    var storage: StorageMap

    constructor ()
      ensures fresh(storage) && storage.entries == map[]
    {
      storage := new StorageMap(map[]);
    }

    method RemoveStorage(u: Uid)
      modifies this
      ensures storage.entries == Evicted(old(storage.entries), u)
      ensures storage == old(storage) || fresh(storage)
      ensures unchanged(old(storage))
    {
      if u in storage.entries {
        var copy := storage.Clone();
        copy.entries := copy.entries - {u};
        storage := copy;
      }
    }

    method CreateCustomResourceDefinition(c: Crd)
      modifies this
      ensures storage.entries == HandledCache(old(storage.entries), Added(c))
      ensures storage == old(storage) || fresh(storage)
      ensures unchanged(old(storage))
    {
      RemoveStorage(c.uid);
    }

    method UpdateCustomResourceDefinition(before: Crd, after: Crd)
      modifies this
      ensures storage.entries == HandledCache(old(storage.entries), Updated(before, after))
      ensures storage == old(storage) || fresh(storage)
      ensures unchanged(old(storage))
    {
      if before.uid != after.uid {
        RemoveStorage(before.uid);
      }
      if after.uid !in storage.entries {
        return;
      }
      if AsIs(after) == storage.entries[after.uid] {
        return;
      }
      RemoveStorage(after.uid);
    }

    method RemoveDeadStorage(listed: seq<Crd>)
      modifies this
      ensures storage.entries == Swept(old(storage.entries), set c | c in listed :: c.uid)
      ensures fresh(storage) && unchanged(old(storage))
    {
      var kept := new StorageMap(map[]);
      for i := 0 to |listed|
        invariant fresh(kept) && storage == old(storage) && unchanged(storage)
        invariant forall u :: u in kept.entries <==> u in storage.entries && exists j :: 0 <= j < i && listed[j].uid == u
        invariant forall u :: u in kept.entries ==> kept.entries[u] == storage.entries[u]
      {
        var u := listed[i].uid;
        if u in storage.entries {
          kept.entries := kept.entries[u := storage.entries[u]];
        }
      }
      storage := kept;
    }

    /** A lookup: the published map is probed, without the lock, for the uid the request resolved to; if the
        entry is not there, what the lister has by then, if anything, is served and published. */
    method GetOrCreateServingInfoFor(asked: Uid, found: Option<(Uid, Info)>) returns (served: Option<Info>)
      modifies this
      ensures asked in old(storage.entries) ==>
                served == Some(old(storage.entries)[asked]) && storage == old(storage)
      ensures asked !in old(storage.entries) && found.None? ==> served == None && storage == old(storage)
      ensures asked !in old(storage.entries) && found.Some? ==>
                && storage.entries == Filled(old(storage.entries), found.value.0, found.value.1)
                && served == Some(storage.entries[found.value.0])
      ensures storage == old(storage) || fresh(storage)
      ensures unchanged(old(storage))
    {
      if asked in storage.entries {
        return Some(storage.entries[asked]);
      }
      if found.None? {
        return None;
      }
      var (u, info) := found.value;
      if u in storage.entries {
        return Some(storage.entries[u]);
      }
      var copy := storage.Clone();
      copy.entries := copy.entries[u := info];
      storage := copy;
      return Some(info);
    }
  }

  // ------------------------------------------------------------------ all of it together

  /** The lock: free, or held by a lookup that has read a CRD and is building its entry. */
  datatype Lock = Free | Building(uid: Uid, info: Info)

  /** A request that has resolved a name to a uid, and not yet probed the published map for it. */
  datatype Reader = Reader(t: TenantId, name: Name, uid: Uid)

  datatype State = State(world: World, lock: Lock, cache: Cache, readers: map<nat, Reader>)

  datatype Step =
    | Happen(change: Change)
    | Handle
    | Sweep
    | Resolve(id: nat, t: TenantId, name: Name)
    | Probe(id: nat)
    | Look(t: TenantId, name: Name)
    | Publish
    | Abandon

  predicate Enabled(shared: Sharing, s: State, step: Step) {
    match step
    case Happen(change) => Possible(s.world, change)
    case Handle =>
      s.world.handler.Idle? && |s.world.queue| > 0 && (s.world.queue[0].Deleted? || s.lock.Free?)
    case Sweep => s.world.handler.Sweeping? && s.lock.Free?
    case Resolve(id, t, n) => id !in s.readers && TenantCrd(shared, s.world.lister, t, n).Some?
    case Probe(id) => id in s.readers
    case Look(t, n) => s.lock.Free? && TenantCrd(shared, s.world.lister, t, n).Some?
    case Publish => s.lock.Building?
    case Abandon => s.lock.Building?
  }

  /** The first event of the queue is taken off it; a deletion only lists what is live. */
  function HandledWorld(w: World): World
    requires |w.queue| > 0
  {
    w.(queue := w.queue[1..], handler := if w.queue[0].Deleted? then Sweeping(Uids(w.lister)) else w.handler)
  }

  function HandledCache(cache: Cache, e: Event): Cache {
    match e
    case Added(c) => Evicted(cache, c.uid)
    case Updated(before, after) => Refreshed(cache, before, after)
    case Deleted => cache
  }

  function Next(shared: Sharing, s: State, step: Step): State
    requires Enabled(shared, s, step)
  {
    match step
    case Happen(change) => s.(world := Changed(s.world, change))
    case Handle => s.(world := HandledWorld(s.world), cache := HandledCache(s.cache, s.world.queue[0]))
    case Sweep => s.(world := s.world.(handler := Idle), cache := Swept(s.cache, s.world.handler.live))
    case Resolve(id, t, n) =>
      s.(readers := s.readers[id := Reader(t, n, TenantCrd(shared, s.world.lister, t, n).value.0)])
    case Probe(id) => s.(readers := s.readers - {id})
    case Look(t, n) =>
      var found := TenantCrd(shared, s.world.lister, t, n).value;
      s.(lock := Building(found.0, found.1))
    case Publish => s.(lock := Free, cache := Filled(s.cache, s.lock.uid, s.lock.info))
    case Abandon => s.(lock := Free)
  }

  predicate IsRun(shared: Sharing, s: State, steps: seq<Step>)
    decreases |steps|
  {
    steps == [] || (Enabled(shared, s, steps[0]) && IsRun(shared, Next(shared, s, steps[0]), steps[1..]))
  }

  function After(shared: Sharing, s: State, steps: seq<Step>): State
    requires IsRun(shared, s, steps)
    decreases |steps|
  {
    if steps == [] then s else After(shared, Next(shared, s, steps[0]), steps[1..])
  }

  const INITIAL := State(World(map[], map[], [], Idle), Free, map[], map[])

  // ------------------------------------------------------------------ coherence

  /** Handling this event removes a stale entry of this CRD's uid. */
  predicate Renews(e: Event, c: Crd) {
    match e
    case Added(crd) => crd == c
    case Updated(_, after) => after == c
    case Deleted => false
  }

  /** Handling this event removes the entry of a uid that is gone. */
  predicate Buries(e: Event, u: Uid) {
    match e
    case Added(_) => false
    case Updated(before, after) => before.uid == u != after.uid
    case Deleted => true
  }

  predicate Doomed(w: World, u: Uid) {
    if Live(w, u) then exists i :: 0 <= i < |w.queue| && Renews(w.queue[i], w.lister[w.born[u]])
    else (exists i :: 0 <= i < |w.queue| && Buries(w.queue[i], u)) || (w.handler.Sweeping? && u !in w.handler.live)
  }

  predicate IsCurrent(shared: Sharing, w: World, u: Uid, info: Info) {
    Live(w, u) && info == Shown(shared, w.lister[w.born[u]])
  }

  /** An entry is the view of the CRD as it is now, or an event is pending that removes it. */
  ghost predicate Covered(shared: Sharing, w: World, u: Uid, info: Info) {
    && u in w.born && (shared(w.born[u]) || |w.born[u].group| > TENANT_ID_LENGTH)
    && info.name == Shown(shared, Crd(u, w.born[u], "", "")).name
    && (IsCurrent(shared, w, u, info) || Doomed(w, u))
  }

  ghost predicate Inv(shared: Sharing, s: State) {
    && WorldOk(s.world)
    && (forall u :: u in s.cache ==> Covered(shared, s.world, u, s.cache[u]))
    && (s.lock.Building? ==> Covered(shared, s.world, s.lock.uid, s.lock.info))
    && (forall id :: id in s.readers ==> ReaderOk(shared, s.world, s.readers[id]))
  }

  /** The uid a request resolved to was issued for the CRD it means, and for no other. */
  predicate ReaderOk(shared: Sharing, w: World, r: Reader) {
    r.uid in w.born && w.born[r.uid] == UpstreamName(shared, r.t, r.name)
  }

  lemma ChangeKeepsWorld(w: World, change: Change)
    requires WorldOk(w) && Possible(w, change)
    ensures WorldOk(Changed(w, change))
  {
  }

  lemma ChangeKeepsCovered(shared: Sharing, w: World, change: Change, u: Uid, info: Info)
    requires WorldOk(w) && Possible(w, change) && Covered(shared, w, u, info)
    ensures Covered(shared, Changed(w, change), u, info)
  {
    var later := Changed(w, change);
    var last := later.queue[|w.queue|];
    assert forall i :: 0 <= i < |w.queue| ==> later.queue[i] == w.queue[i];
    if Live(w, u) {
      if Live(later, u) {
        if later.lister[later.born[u]] != w.lister[w.born[u]] {
          assert Renews(last, later.lister[later.born[u]]);
        }
      } else {
        assert Buries(last, u);
      }
    }
  }

  /** Handling an event that was to remove an entry removes it, unless the entry is current after all. */
  lemma HandlingRemoves(shared: Sharing, w: World, cache: Cache, u: Uid)
    requires WorldOk(w) && |w.queue| > 0 && u in cache && Covered(shared, w, u, cache[u])
    requires if Live(w, u) then Renews(w.queue[0], w.lister[w.born[u]]) else Buries(w.queue[0], u)
    ensures u in HandledCache(cache, w.queue[0]) ==>
              || IsCurrent(shared, w, u, cache[u])
              || (w.queue[0].Deleted? && u !in HandledWorld(w).handler.live)
  {
  }

  /** An update leaves an entry in place exactly if the CRD is a shared one and has not changed: what the
      entry of a tenant's own CRD remembers is the tenant's view, which is never what the event carries. An
      entry of another CRD's is left alone. */
  lemma UpdateKeepsIff(shared: Sharing, w: World, cache: Cache, before: Crd, after: Crd, u: Uid)
    requires WorldOk(w) && Known(w.born, after) && u in cache && Covered(shared, w, u, cache[u])
    ensures u == after.uid ==>
              (u in Refreshed(cache, before, after) <==> shared(after.name) && cache[u] == AsIs(after))
    ensures u != after.uid && u != before.uid ==>
              u in Refreshed(cache, before, after) && Refreshed(cache, before, after)[u] == cache[u]
  {
  }

  lemma HandlingKeepsCovered(shared: Sharing, w: World, u: Uid, info: Info)
    requires WorldOk(w) && |w.queue| > 0 && w.handler.Idle? && Covered(shared, w, u, info)
    requires u in HandledCache(map[u := info], w.queue[0])
    ensures Covered(shared, HandledWorld(w), u, info)
  {
  }

  /** A CRD found in the lister is current, and has a name an entry can have. */
  lemma FoundIsCovered(shared: Sharing, w: World, t: TenantId, n: Name)
    requires Sane(shared) && WorldOk(w) && TenantCrd(shared, w.lister, t, n).Some?
    ensures var found := TenantCrd(shared, w.lister, t, n).value; Covered(shared, w, found.0, found.1)
  {
  }

  lemma HandleKept(shared: Sharing, s: State)
    requires Inv(shared, s) && Enabled(shared, s, Handle)
    ensures Inv(shared, Next(shared, s, Handle))
  {
    var t := Next(shared, s, Handle);
    forall u | u in t.cache
      ensures Covered(shared, t.world, u, t.cache[u])
    {
      HandlingKeepsCovered(shared, s.world, u, s.cache[u]);
    }
    if s.lock.Building? {
      HandlingKeepsCovered(shared, s.world, s.lock.uid, s.lock.info);
    }
  }

  lemma HappenKept(shared: Sharing, s: State, change: Change)
    requires Inv(shared, s) && Possible(s.world, change)
    ensures Inv(shared, Next(shared, s, Happen(change)))
  {
    ChangeKeepsWorld(s.world, change);
    forall u | u in s.cache
      ensures Covered(shared, Changed(s.world, change), u, s.cache[u])
    {
      ChangeKeepsCovered(shared, s.world, change, u, s.cache[u]);
    }
    if s.lock.Building? {
      ChangeKeepsCovered(shared, s.world, change, s.lock.uid, s.lock.info);
    }
  }

  lemma SweepKept(shared: Sharing, s: State)
    requires Inv(shared, s) && Enabled(shared, s, Sweep)
    ensures Inv(shared, Next(shared, s, Sweep))
  {
  }

  lemma InvKept(shared: Sharing, s: State, step: Step)
    requires Sane(shared) && Inv(shared, s) && Enabled(shared, s, step)
    ensures Inv(shared, Next(shared, s, step))
  {
    match step
    case Happen(change) => HappenKept(shared, s, change);
    case Handle => HandleKept(shared, s);
    case Sweep => SweepKept(shared, s);
    case Resolve(_, t, n) => TenantCrdIsShown(shared, s.world.lister, t, n);
    case Probe(_) =>
    case Look(t, n) => FoundIsCovered(shared, s.world, t, n);
    case Publish =>
    case Abandon =>
  }

  lemma {:induction false} InvHolds(shared: Sharing, s: State, steps: seq<Step>)
    requires Sane(shared) && Inv(shared, s) && IsRun(shared, s, steps)
    ensures Inv(shared, After(shared, s, steps))
    decreases |steps|
  {
    if steps != [] {
      InvKept(shared, s, steps[0]);
      InvHolds(shared, Next(shared, s, steps[0]), steps[1..]);
    }
  }

  // ------------------------------------------------------------------ what follows

  /** In every state that can be reached, every entry is the view of the CRD as the lister has it now, or
      an event that removes it is still to be handled. */
  lemma EveryEntryIsCurrentOrDoomed(shared: Sharing, steps: seq<Step>, u: Uid)
    requires Sane(shared) && IsRun(shared, INITIAL, steps) && u in After(shared, INITIAL, steps).cache
    ensures var s := After(shared, INITIAL, steps); IsCurrent(shared, s.world, u, s.cache[u]) || Doomed(s.world, u)
  {
    InvHolds(shared, INITIAL, steps);
  }

  /** Once the events have been handled the cache agrees with the lister: an entry is there only for a CRD
      that is there, and it is the view of that CRD. */
  lemma QuietCacheAgrees(shared: Sharing, steps: seq<Step>, u: Uid)
    requires Sane(shared) && IsRun(shared, INITIAL, steps) && u in After(shared, INITIAL, steps).cache
    requires After(shared, INITIAL, steps).world.queue == [] && After(shared, INITIAL, steps).world.handler.Idle?
    ensures var s := After(shared, INITIAL, steps);
            exists n :: n in s.world.lister && s.world.lister[n].uid == u && s.cache[u] == Shown(shared, s.world.lister[n])
  {
    InvHolds(shared, INITIAL, steps);
  }

  predicate Finds(shared: Sharing, lister: map<Name, Crd>, t: TenantId, n: Name, uid: Uid) {
    var found := TenantCrd(shared, lister, t, n);
    found.Some? && found.value.0 == uid
  }

  /** A tenant is served, under the name it asked for, an entry that no other tenant is served; a lookup
      that finds nothing pending is served the CRD as it is. */
  lemma LookupServesTheTenantsOwn(shared: Sharing, steps: seq<Step>, t: TenantId, n: Name)
    requires Sane(shared) && IsRun(shared, INITIAL, steps)
    requires Enabled(shared, After(shared, INITIAL, steps), Look(t, n))
    ensures var s := After(shared, INITIAL, steps);
            var looking := Next(shared, s, Look(t, n));
            var served := Next(shared, looking, Publish).cache[looking.lock.uid];
            && served.name == n
            && (served == looking.lock.info || Doomed(s.world, looking.lock.uid))
            && (!shared(n) ==> forall u: TenantId, m: Name ::
                  Finds(shared, s.world.lister, u, m, looking.lock.uid) ==> u == t && m == n)
  {
    InvHolds(shared, INITIAL, steps);
    var s := After(shared, INITIAL, steps);
    TenantCrdIsShown(shared, s.world.lister, t, n);
    FoundIsCovered(shared, s.world, t, n);
    if !shared(n) {
      var uid := TenantCrd(shared, s.world.lister, t, n).value.0;
      forall u: TenantId, m: Name | Finds(shared, s.world.lister, u, m, uid)
        ensures u == t && m == n
      {
        OneFinder(shared, s.world, uid, t, n, u, m);
      }
    }
  }

  /** A probe without the lock, however much has happened since the request resolved its name, serves an
      entry under the name the request asked for, which is the CRD as it is unless an event is pending, and
      which no other tenant can have asked for. */
  lemma ProbeServesTheTenantsOwn(shared: Sharing, steps: seq<Step>, id: nat)
    requires Sane(shared) && IsRun(shared, INITIAL, steps)
    requires var s := After(shared, INITIAL, steps); id in s.readers && s.readers[id].uid in s.cache
    ensures var s := After(shared, INITIAL, steps);
            var r := s.readers[id];
            && s.cache[r.uid].name == r.name
            && (IsCurrent(shared, s.world, r.uid, s.cache[r.uid]) || Doomed(s.world, r.uid))
            && (!shared(r.name) ==> forall other: Reader ::
                  other.uid == r.uid && ReaderOk(shared, s.world, other) ==> other == r)
            && (forall other :: other in s.readers ==> ReaderOk(shared, s.world, s.readers[other]))
  {
    InvHolds(shared, INITIAL, steps);
    var s := After(shared, INITIAL, steps);
    var r := s.readers[id];
    ShownUnderItsName(shared, r.t, r.name, r.uid);
    if !shared(r.name) {
      forall other: Reader | other.uid == r.uid && ReaderOk(shared, s.world, other) ensures other == r {
        OneName(shared, r.t, r.name, other.t, other.name);
      }
    }
  }

  lemma ShownUnderItsName(shared: Sharing, t: TenantId, n: Name, u: Uid)
    requires Sane(shared)
    ensures Shown(shared, Crd(u, UpstreamName(shared, t, n), "", "")).name == n
  {
    var name := UpstreamName(shared, t, n);
    TenantCrdIsShown(shared, map[name := Crd(u, name, "", "")], t, n);
  }

  lemma OneName(shared: Sharing, t: TenantId, n: Name, u: TenantId, m: Name)
    requires Sane(shared) && !shared(n) && UpstreamName(shared, t, n) == UpstreamName(shared, u, m)
    ensures u == t && m == n
  {
    var name := UpstreamName(shared, t, n);
    var lister := map[name := Crd(0, name, "", "")];
    TenantCrdIsShown(shared, lister, t, n);
    TenantCrdIsShown(shared, lister, u, m);
  }

  lemma OneFinder(shared: Sharing, w: World, uid: Uid, t: TenantId, n: Name, u: TenantId, m: Name)
    requires Sane(shared) && WorldOk(w) && !shared(n)
    requires Finds(shared, w.lister, t, n, uid) && Finds(shared, w.lister, u, m, uid)
    ensures u == t && m == n
  {
  }
}
