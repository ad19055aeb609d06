/** The ClusterResourceQuota reconciler: one ResourceQuota in every matched namespace, and none elsewhere
    (pkg/clusterresourcequota/controllers/clusterresourcequota_controller.go).
 */
module Quota {
  import opened Wrappers

  type Labels = map<string, string>

  /** Amounts by resource name. */
  type Amounts = map<string, int>

  const CREATED_BY := "clusterresourcequota.quota.kubezoo.io/created-by"
  const AUTO_UPDATE := "clusterresourcequota.quota.kubezoo.io/autoupdate"
  const KIND := "ClusterResourceQuota"

  /** The object that controls another one. */
  datatype Owner = Owner(kind: string, name: string)

  datatype ResourceQuota = ResourceQuota(owner: Option<Owner>, labels: Labels, hard: Amounts, used: Amounts)

  datatype ClusterQuota = ClusterQuota(name: string, hard: Amounts, statusHard: Amounts, statusUsed: Amounts)

  /** Namespace and name. */
  type Key = (string, string)
  type Store = map<Key, ResourceQuota>

  function At(store: Store, k: Key): Option<ResourceQuota> {
    if k in store then Some(store[k]) else None
  }

  /** The quotas the reconciler finds. */
  predicate Labelled(c: ClusterQuota, q: ResourceQuota) {
    CREATED_BY in q.labels && q.labels[CREATED_BY] == c.name
  }

  /** The quotas it takes for its own: the kind of the owner is looked at, and not its name. */
  predicate Controlled(q: ResourceQuota) {
    q.owner.Some? && q.owner.value.kind == KIND
  }

  function Disowned(q: ResourceQuota): ResourceQuota {
    q.(labels := q.labels - {CREATED_BY})
  }

  predicate Clean(c: ClusterQuota, q: ResourceQuota) {
    q.hard == c.hard && Labelled(c, q) && AUTO_UPDATE in q.labels && q.labels[AUTO_UPDATE] == "true"
  }

  function Repaired(c: ClusterQuota, q: ResourceQuota): ResourceQuota {
    q.(hard := c.hard, labels := q.labels[CREATED_BY := c.name][AUTO_UPDATE := "true"])
  }

  function Fresh(c: ClusterQuota): ResourceQuota {
    ResourceQuota(Some(Owner(KIND, c.name)), map[CREATED_BY := c.name, AUTO_UPDATE := "true"], c.hard, map[])
  }

  // ------------------------------------------------------------------ one namespace

  /** Where the loop over a namespace's quotas has got to. */
  datatype Scan = Scan(store: Store, kept: Option<string>, writes: nat)

  ghost predicate Distinct(names: seq<string>) {
    forall i, j :: 0 <= i < j < |names| ==> names[i] != names[j]
  }

  predicate Present(store: Store, ns: string, names: seq<string>) {
    forall i :: 0 <= i < |names| ==> (ns, names[i]) in store
  }

  /** One turn of the loop: a quota that is not the reconciler's loses the label, the first that is stays,
      and any other is deleted. */
  function Turn(scan: Scan, k: Key, q: ResourceQuota): Scan {
    if !Controlled(q) then scan.(store := scan.store[k := Disowned(q)], writes := scan.writes + 1)
    else if scan.kept.None? then scan.(kept := Some(k.1))
    else scan.(store := scan.store - {k}, writes := scan.writes + 1)
  }

  /** The quotas are read from what was listed, and written to the store as it is by then. */
  function ScanTo(listed: Store, ns: string, names: seq<string>, i: nat, store: Store): Scan
    requires i <= |names| && Present(listed, ns, names)
    decreases i
  {
    if i == 0 then Scan(store, None, 0)
    else Turn(ScanTo(listed, ns, names, i - 1, store), (ns, names[i - 1]), listed[(ns, names[i - 1])])
  }

  /** A store, the name of the quota that was kept or created, and how many requests were made. */
  datatype Effect = Effect(store: Store, kept: string, writes: nat)

  /** ensureResourceQuotaInNamespace; `generated` is the name the server would give to a new quota. */
  function Ensure(c: ClusterQuota, listed: Store, ns: string, names: seq<string>, generated: string, store: Store): Effect
    requires Present(listed, ns, names)
  {
    var scan := ScanTo(listed, ns, names, |names|, store);
    if scan.kept.None? || (ns, scan.kept.value) !in listed then
      Effect(scan.store[(ns, generated) := Fresh(c)], generated, scan.writes + 1)
    else
      var k := (ns, scan.kept.value);
      if Clean(c, listed[k]) then Effect(scan.store, k.1, scan.writes)
      else Effect(scan.store[k := Repaired(c, listed[k])], k.1, scan.writes + 1)
  }

  /** What the loop leaves of one quota, and which one it keeps. */
  lemma {:induction false} ScanAt(listed: Store, ns: string, names: seq<string>, i: nat, store: Store, k: Key)
    requires i <= |names| && Present(listed, ns, names) && Distinct(names)
    ensures var scan := ScanTo(listed, ns, names, i, store);
            && (scan.kept.Some? ==> scan.kept.value in names[..i] && (ns, scan.kept.value) in listed
                                    && Controlled(listed[(ns, scan.kept.value)]))
            && (scan.kept.None? ==> forall j :: 0 <= j < i ==> !Controlled(listed[(ns, names[j])]))
            && At(scan.store, k) ==
               if k.0 != ns || k.1 !in names[..i] || k !in listed then At(store, k)
               else if !Controlled(listed[k]) then Some(Disowned(listed[k]))
               else if scan.kept == Some(k.1) then At(store, k)
               else None
    decreases i
  {
    if i > 0 {
      ScanAt(listed, ns, names, i - 1, store, k);
      assert names[..i] == names[..i - 1] + [names[i - 1]];
    }
  }

  /** What becomes of one quota of a matched namespace in which `kept` is kept or created. */
  ghost predicate Becomes(c: ClusterQuota, was: Option<ResourceQuota>, found: bool, isKept: bool, now: Option<ResourceQuota>) {
    if isKept then
      && now.Some? && Clean(c, now.value) && Controlled(now.value)
      && now.value.used == (if was.Some? then was.value.used else map[])
      && (was.Some? ==> Controlled(was.value) && now.value.owner == was.value.owner)
    else if !found then now == was
    else was.Some? && now == if Controlled(was.value) then None else Some(Disowned(was.value))
  }

  /** What reconciling one namespace leaves of one quota. */
  lemma EnsureAt(c: ClusterQuota, listed: Store, ns: string, names: seq<string>, generated: string, store: Store, k: Key)
    requires Present(listed, ns, names) && Distinct(names) && (ns, generated) !in listed
    requires k.0 == ns ==> At(store, k) == At(listed, k)
    ensures var e := Ensure(c, listed, ns, names, generated, store);
            && (k.0 != ns ==> At(e.store, k) == At(store, k))
            && (k.0 == ns ==> Becomes(c, At(listed, k), k.1 in names, k.1 == e.kept, At(e.store, k)))
            && (e.kept == generated || e.kept in names)
  {
    var scan := ScanTo(listed, ns, names, |names|, store);
    ScanAt(listed, ns, names, |names|, store, k);
    assert names[..|names|] == names;
  }

  // ------------------------------------------------------------------ all namespaces

  /** The names of the quotas found, by namespace. */
  type Listing = map<string, seq<string>>

  function NamesIn(listing: Listing, ns: string): seq<string> {
    if ns in listing then listing[ns] else []
  }

  /** Everything that carries the label is listed, once. */
  ghost predicate Lists(c: ClusterQuota, store: Store, listing: Listing) {
    && (forall ns :: Distinct(NamesIn(listing, ns)) && Present(store, ns, NamesIn(listing, ns)))
    && (forall k: Key :: k.1 in NamesIn(listing, k.0) <==> k in store && Labelled(c, store[k]))
  }

  /** What a reconcile is given: the cluster quota, the quotas listed for it, the namespaces it matches, and
      the names the server would generate. */
  datatype Round = Round(c: ClusterQuota, listed: Store, listing: Listing, matched: seq<string>, generated: string -> string)

  ghost predicate RoundOk(t: Round) {
    && Distinct(t.matched)
    && Lists(t.c, t.listed, t.listing)
    && (forall ns :: (ns, t.generated(ns)) !in t.listed)
  }

  /** Where the loop over the matched namespaces has got to. */
  datatype Pass = Pass(store: Store, kept: seq<string>, writes: nat)

  function EnsureTo(t: Round, i: nat): (pass: Pass)
    requires i <= |t.matched| && forall ns :: Present(t.listed, ns, NamesIn(t.listing, ns))
    ensures |pass.kept| == i
    decreases i
  {
    if i == 0 then Pass(t.listed, [], 0)
    else
      var before, ns := EnsureTo(t, i - 1), t.matched[i - 1];
      var e := Ensure(t.c, t.listed, ns, NamesIn(t.listing, ns), t.generated(ns), before.store);
      Pass(e.store, before.kept + [e.kept], before.writes + e.writes)
  }

  lemma {:induction false} EnsureToAt(t: Round, i: nat, k: Key)
    requires RoundOk(t) && i <= |t.matched|
    ensures k.0 !in t.matched[..i] ==> At(EnsureTo(t, i).store, k) == At(t.listed, k)
    ensures forall j :: 0 <= j < i && t.matched[j] == k.0 ==>
              var kept := EnsureTo(t, i).kept[j];
              && Becomes(t.c, At(t.listed, k), k.1 in NamesIn(t.listing, k.0), k.1 == kept, At(EnsureTo(t, i).store, k))
              && (kept == t.generated(k.0) || kept in NamesIn(t.listing, k.0))
    decreases i
  {
    if i > 0 {
      var before, ns := EnsureTo(t, i - 1), t.matched[i - 1];
      EnsureToAt(t, i - 1, k);
      assert t.matched[..i] == t.matched[..i - 1] + [ns];
      assert k.0 == ns ==> k.0 !in t.matched[..i - 1];
      EnsureAt(t.c, t.listed, ns, NamesIn(t.listing, ns), t.generated(ns), before.store, k);
    }
  }

  /** The quotas of namespaces that are not matched, all of them, are deleted. */
  function Withdrawn(store: Store, listing: Listing, matched: seq<string>): Store {
    map k | k in store && !(k.0 !in matched && k.1 in NamesIn(listing, k.0)) :: store[k]
  }

  function Surplus(listing: Listing, matched: seq<string>): set<string> {
    set ns | ns in listing && ns !in matched && listing[ns] != []
  }

  function Reconciled(t: Round): Store
    requires forall ns :: Present(t.listed, ns, NamesIn(t.listing, ns))
  {
    Withdrawn(EnsureTo(t, |t.matched|).store, t.listing, t.matched)
  }

  function Kept(t: Round): seq<string>
    requires forall ns :: Present(t.listed, ns, NamesIn(t.listing, ns))
  {
    EnsureTo(t, |t.matched|).kept
  }

  // ------------------------------------------------------------------ what a reconcile achieves

  lemma ReconciledAt(t: Round, k: Key)
    requires RoundOk(t)
    ensures k.0 !in t.matched ==>
              At(Reconciled(t), k) == if k.1 in NamesIn(t.listing, k.0) then None else At(t.listed, k)
    ensures forall j :: 0 <= j < |t.matched| && t.matched[j] == k.0 ==>
              && Becomes(t.c, At(t.listed, k), k.1 in NamesIn(t.listing, k.0), k.1 == Kept(t)[j], At(Reconciled(t), k))
              && (Kept(t)[j] == t.generated(k.0) || Kept(t)[j] in NamesIn(t.listing, k.0))
  {
    EnsureToAt(t, |t.matched|, k);
    assert t.matched[..|t.matched|] == t.matched;
  }

  /** Whatever was there before, every matched namespace ends up with exactly one quota that carries the
      label; it is owned by a ClusterResourceQuota and has the right spec and both labels. */
  lemma ExactlyOneInEveryMatchedNamespace(t: Round, j: nat, n: string)
    requires RoundOk(t) && j < |t.matched|
    ensures var k := (t.matched[j], n);
            k in Reconciled(t) && Labelled(t.c, Reconciled(t)[k]) <==> n == Kept(t)[j]
    ensures var k := (t.matched[j], Kept(t)[j]);
            k in Reconciled(t) && Clean(t.c, Reconciled(t)[k]) && Controlled(Reconciled(t)[k])
  {
    ReconciledAt(t, (t.matched[j], n));
    ReconciledAt(t, (t.matched[j], Kept(t)[j]));
  }

  /** No other namespace has one. */
  lemma NoneElsewhere(t: Round, k: Key)
    requires RoundOk(t) && k.0 !in t.matched
    ensures k in Reconciled(t) ==> !Labelled(t.c, Reconciled(t)[k])
  {
    ReconciledAt(t, k);
  }

  /** Quotas that do not carry the label are left alone, and in a matched namespace one that is not owned by
      a ClusterResourceQuota only loses the label. */
  lemma OthersAreLeftAlone(t: Round, k: Key)
    requires RoundOk(t) && k in t.listed
    ensures !Labelled(t.c, t.listed[k]) ==> At(Reconciled(t), k) == At(t.listed, k)
    ensures Labelled(t.c, t.listed[k]) && !Controlled(t.listed[k]) && k.0 in t.matched ==>
              At(Reconciled(t), k) == Some(Disowned(t.listed[k]))
  {
    ReconciledAt(t, k);
    if k.0 in t.matched {
      var j :| 0 <= j < |t.matched| && t.matched[j] == k.0;
      ReconciledAt(t, (k.0, Kept(t)[j]));
    }
  }

  // ------------------------------------------------------------------ whose quota is kept

  /** The first of the quotas found that is owned by some ClusterResourceQuota. */
  function FirstControlled(listed: Store, ns: string, names: seq<string>, i: nat): Option<string>
    requires i <= |names| && Present(listed, ns, names)
    decreases i
  {
    if i == 0 then None
    else
      var before := FirstControlled(listed, ns, names, i - 1);
      if before.None? && Controlled(listed[(ns, names[i - 1])]) then Some(names[i - 1]) else before
  }

  lemma {:induction false} ScanKeepsTheFirst(listed: Store, ns: string, names: seq<string>, i: nat, store: Store)
    requires i <= |names| && Present(listed, ns, names)
    ensures ScanTo(listed, ns, names, i, store).kept == FirstControlled(listed, ns, names, i)
    decreases i
  {
    if i > 0 {
      ScanKeepsTheFirst(listed, ns, names, i - 1, store);
    }
  }

  lemma {:induction false} KeptStays(t: Round, i: nat, j: nat)
    requires RoundOk(t) && j < i <= |t.matched|
    ensures EnsureTo(t, i).kept[j] == EnsureTo(t, j + 1).kept[j]
    decreases i
  {
    if j < i - 1 {
      KeptStays(t, i - 1, j);
    }
  }

  lemma LastKeptIsTheFirst(t: Round, j: nat)
    requires RoundOk(t) && j < |t.matched|
    ensures var first := FirstIn(t, t.matched[j]);
            EnsureTo(t, j + 1).kept[j] == if first.Some? then first.value else t.generated(t.matched[j])
  {
    var ns := t.matched[j];
    var names := NamesIn(t.listing, ns);
    ScanKeepsTheFirst(t.listed, ns, names, |names|, EnsureTo(t, j).store);
    ScanAt(t.listed, ns, names, |names|, EnsureTo(t, j).store, (ns, ""));
  }

  lemma KeptIsTheFirst(t: Round, i: nat, j: nat)
    requires RoundOk(t) && j < i <= |t.matched|
    ensures var first := FirstIn(t, t.matched[j]);
            EnsureTo(t, i).kept[j] == if first.Some? then first.value else t.generated(t.matched[j])
  {
    KeptStays(t, i, j);
    LastKeptIsTheFirst(t, j);
  }

  function FirstIn(t: Round, ns: string): Option<string>
    requires forall ns :: Present(t.listed, ns, NamesIn(t.listing, ns))
  {
    FirstControlled(t.listed, ns, NamesIn(t.listing, ns), |NamesIn(t.listing, ns)|)
  }

  predicate BelongsTo(c: ClusterQuota, q: Option<ResourceQuota>) {
    q.Some? && q.value.owner == Some(Owner(KIND, c.name))
  }

  /** The quota a namespace ends up with belongs to this very ClusterResourceQuota exactly when the first
      quota found there that belongs to any of them belongs to this one: a quota of another one's that
      carries the label is adopted as it is. */
  lemma KeptBelongsIff(t: Round, j: nat)
    requires RoundOk(t) && j < |t.matched|
    ensures var ns := t.matched[j];
            BelongsTo(t.c, At(Reconciled(t), (ns, Kept(t)[j])))
            <==> (FirstIn(t, ns).Some? ==> BelongsTo(t.c, At(t.listed, (ns, FirstIn(t, ns).value))))
  {
    var ns := t.matched[j];
    var k := (ns, Kept(t)[j]);
    KeptIsTheFirst(t, |t.matched|, j);
    ReconciledAt(t, k);
    if FirstIn(t, ns).None? {
      CreatedIsOwned(t, |t.matched|, j);
    } else {
      ScanKeepsTheFirst(t.listed, ns, NamesIn(t.listing, ns), |NamesIn(t.listing, ns)|, t.listed);
      ScanAt(t.listed, ns, NamesIn(t.listing, ns), |NamesIn(t.listing, ns)|, t.listed, k);
    }
  }

  const ANOTHERS := ResourceQuota(Some(Owner(KIND, "theirs")), map[CREATED_BY := "mine"], map[], map[])

  const ADOPTING := Round(ClusterQuota("mine", map[], map[], map[]), map[("default", "q") := ANOTHERS],
                         map["default" := ["q"]], ["default"], ns => "mine-x")

  /** So it can happen: the quota that is kept is owned by another ClusterResourceQuota. */
  lemma AdoptsAnothersQuota()
    ensures RoundOk(ADOPTING) && !BelongsTo(ADOPTING.c, At(Reconciled(ADOPTING), ("default", Kept(ADOPTING)[0])))
  {
    var t := ADOPTING;
    assert NamesIn(t.listing, "default") == ["q"];
    assert FirstIn(t, "default") == Some("q") by {
      assert FirstControlled(t.listed, "default", ["q"], 0) == None;
    }
    KeptBelongsIff(t, 0);
  }

  /** A quota that was not there before was created, and is owned by the cluster quota it was created for. */
  lemma {:induction false} CreatedIsOwned(t: Round, i: nat, j: nat)
    requires RoundOk(t) && j < i <= |t.matched| && EnsureTo(t, i).kept[j] == t.generated(t.matched[j])
    ensures At(EnsureTo(t, i).store, (t.matched[j], t.generated(t.matched[j]))) == Some(Fresh(t.c))
    decreases i
  {
    var ns, before := t.matched[i - 1], EnsureTo(t, i - 1);
    var k := (t.matched[j], t.generated(t.matched[j]));
    var names := NamesIn(t.listing, ns);
    if j < i - 1 {
      CreatedIsOwned(t, i - 1, j);
      EnsureAt(t.c, t.listed, ns, names, t.generated(ns), before.store, k);
    } else {
      ScanAt(t.listed, ns, names, |names|, before.store, k);
      assert names[..|names|] == names;
    }
  }

  // ------------------------------------------------------------------ reconciling again

  /** One quota, in order, is all that is found in the namespace. */
  ghost predicate Tidy(c: ClusterQuota, listed: Store, ns: string, names: seq<string>, n: string) {
    names == [n] && (ns, n) in listed && Clean(c, listed[(ns, n)]) && Controlled(listed[(ns, n)])
  }

  lemma TidyNeedsNothing(c: ClusterQuota, listed: Store, ns: string, n: string, generated: string, store: Store)
    requires Tidy(c, listed, ns, [n], n)
    ensures Ensure(c, listed, ns, [n], generated, store) == Effect(store, n, 0)
  {
    assert ScanTo(listed, ns, [n], 1, store) == Turn(ScanTo(listed, ns, [n], 0, store), (ns, n), listed[(ns, n)]);
  }

  lemma {:induction false} TidyRoundNeedsNothing(t: Round, i: nat, kept: seq<string>)
    requires i <= |t.matched| == |kept| && forall ns :: Present(t.listed, ns, NamesIn(t.listing, ns))
    requires forall j :: 0 <= j < |kept| ==> Tidy(t.c, t.listed, t.matched[j], NamesIn(t.listing, t.matched[j]), kept[j])
    ensures EnsureTo(t, i) == Pass(t.listed, kept[..i], 0)
    decreases i
  {
    if i > 0 {
      var ns := t.matched[i - 1];
      TidyRoundNeedsNothing(t, i - 1, kept);
      TidyNeedsNothing(t.c, t.listed, ns, kept[i - 1], t.generated(ns), t.listed);
      assert kept[..i] == kept[..i - 1] + [kept[i - 1]];
    }
  }

  /** The next reconcile, of what the last one left. */
  ghost predicate Follows(next: Round, t: Round)
    requires forall ns :: Present(t.listed, ns, NamesIn(t.listing, ns))
  {
    next.c.name == t.c.name && next.c.hard == t.c.hard && next.matched == t.matched && next.listed == Reconciled(t)
  }

  lemma SingletonOf(names: seq<string>, n: string)
    requires |names| > 1 ==> names[0] != names[1]
    requires n in names && forall i :: 0 <= i < |names| ==> names[i] == n
    ensures names == [n]
  {
  }

  lemma ReconciledIsTidy(t: Round, next: Round, j: nat)
    requires RoundOk(t) && RoundOk(next) && Follows(next, t) && j < |t.matched|
    ensures Tidy(next.c, next.listed, t.matched[j], NamesIn(next.listing, t.matched[j]), Kept(t)[j])
  {
    var ns, n := t.matched[j], Kept(t)[j];
    var names := NamesIn(next.listing, ns);
    forall i | 0 <= i < |names| ensures names[i] == n {
      ListedIsLabelled(next, ns, names[i]);
      ExactlyOneInEveryMatchedNamespace(t, j, names[i]);
    }
    ExactlyOneInEveryMatchedNamespace(t, j, n);
    ListedIsLabelled(next, ns, n);
    SingletonOf(names, n);
  }

  lemma ListedIsLabelled(t: Round, ns: string, n: string)
    requires RoundOk(t)
    ensures n in NamesIn(t.listing, ns) <==> (ns, n) in t.listed && Labelled(t.c, t.listed[(ns, n)])
    ensures |NamesIn(t.listing, ns)| > 1 ==> NamesIn(t.listing, ns)[0] != NamesIn(t.listing, ns)[1]
  {
  }

  lemma NothingLeftToWithdraw(t: Round, next: Round, ns: string)
    requires RoundOk(t) && RoundOk(next) && Follows(next, t) && ns !in next.matched
    ensures NamesIn(next.listing, ns) == []
  {
    var names := NamesIn(next.listing, ns);
    if names != [] {
      ListedIsLabelled(next, ns, names[0]);
      NoneElsewhere(t, (ns, names[0]));
    }
  }

  lemma SecondPassWritesNothing(t: Round, next: Round)
    requires RoundOk(t) && RoundOk(next) && Follows(next, t)
    ensures EnsureTo(next, |next.matched|) == Pass(Reconciled(t), Kept(t), 0)
  {
    var kept := Kept(t);
    forall j | 0 <= j < |kept|
      ensures Tidy(next.c, next.listed, next.matched[j], NamesIn(next.listing, next.matched[j]), kept[j])
    {
      ReconciledIsTidy(t, next, j);
    }
    TidyRoundNeedsNothing(next, |next.matched|, kept);
    assert kept[..|next.matched|] == kept;
  }

  /** A second reconcile makes no request: not for a quota in a matched namespace, and nothing is left to be
      withdrawn elsewhere. */
  lemma SecondReconcileWritesNothing(t: Round, next: Round)
    requires RoundOk(t) && RoundOk(next) && Follows(next, t)
    ensures EnsureTo(next, |next.matched|) == Pass(Reconciled(t), Kept(t), 0)
    ensures Surplus(next.listing, next.matched) == {}
    ensures Reconciled(next) == Reconciled(t)
  {
    SecondPassWritesNothing(t, next);
    forall ns | ns !in next.matched ensures NamesIn(next.listing, ns) == [] {
      NothingLeftToWithdraw(t, next, ns);
    }
    assert forall ns :: ns in next.listing ==> next.listing[ns] == NamesIn(next.listing, ns);
    assert Withdrawn(next.listed, next.listing, next.matched) == next.listed;
  }
}
