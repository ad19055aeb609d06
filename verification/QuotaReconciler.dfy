/** The reconciler as it runs: loops that relabel, delete, create and update quotas one request at a time
    (pkg/clusterresourcequota/controllers/clusterresourcequota_controller.go).
 */
module QuotaReconciler {
  import opened Quota
  import opened Wrappers

  /** The names listed in one namespace, in the order of the list. */
  function NamesFor(items: seq<Key>, ns: string): seq<string> {
    if items == [] then []
    else
      var before, last := NamesFor(items[..|items| - 1], ns), items[|items| - 1];
      if last.0 == ns then before + [last.1] else before
  }

  /** GetResourceQuotaForClusterQuota: the list, by namespace. */
  method ByNamespace(items: seq<Key>) returns (listing: Listing)
    ensures forall ns :: NamesIn(listing, ns) == NamesFor(items, ns)
  {
    listing := map[];
    for i := 0 to |items|
      invariant forall ns :: NamesIn(listing, ns) == NamesFor(items[..i], ns)
    {
      var k := items[i];
      assert items[..i + 1][..i] == items[..i];
      listing := listing[k.0 := NamesIn(listing, k.0) + [k.1]];
    }
    assert items[..|items|] == items;
  }

  ghost predicate ListsOnce(c: ClusterQuota, store: Store, items: seq<Key>) {
    && (forall i, j :: 0 <= i < j < |items| ==> items[i] != items[j])
    && (forall k: Key :: k in items <==> k in store && Labelled(c, store[k]))
  }

  lemma {:induction false} NamesForHolds(items: seq<Key>, ns: string, n: string)
    ensures n in NamesFor(items, ns) <==> (ns, n) in items
    decreases |items|
  {
    if items != [] {
      NamesForHolds(items[..|items| - 1], ns, n);
      assert items == items[..|items| - 1] + [items[|items| - 1]];
    }
  }

  lemma {:induction false} NamesForIsDistinct(items: seq<Key>, ns: string)
    requires forall i, j :: 0 <= i < j < |items| ==> items[i] != items[j]
    ensures Distinct(NamesFor(items, ns))
    decreases |items|
  {
    if items != [] {
      var front := items[..|items| - 1];
      NamesForIsDistinct(front, ns);
      NamesForHolds(front, ns, items[|items| - 1].1);
      assert (items[|items| - 1].0, items[|items| - 1].1) == items[|items| - 1];
    }
  }

  /** Grouping a list of the labelled quotas gives a listing of them. */
  lemma GroupedLists(c: ClusterQuota, store: Store, items: seq<Key>, listing: Listing)
    requires ListsOnce(c, store, items) && forall ns :: NamesIn(listing, ns) == NamesFor(items, ns)
    ensures Lists(c, store, listing)
  {
    forall ns ensures Distinct(NamesIn(listing, ns)) && Present(store, ns, NamesIn(listing, ns)) {
      NamesForIsDistinct(items, ns);
      var names := NamesIn(listing, ns);
      forall i | 0 <= i < |names| ensures (ns, names[i]) in store {
        NamesForHolds(items, ns, names[i]);
      }
    }
    forall k: Key ensures k.1 in NamesIn(listing, k.0) <==> k in store && Labelled(c, store[k]) {
      NamesForHolds(items, k.0, k.1);
      assert (k.0, k.1) == k;
    }
  }

  class Cluster {
    var store: Store
    var writes: nat

    constructor (store: Store)
      ensures this.store == store && writes == 0
    {
      this.store, writes := store, 0;
    }

    method Put(k: Key, q: ResourceQuota)
      modifies this
      ensures store == old(store)[k := q] && writes == old(writes) + 1
    {
      store, writes := store[k := q], writes + 1;
    }

    method Delete(k: Key)
      modifies this
      ensures store == old(store) - {k} && writes == old(writes) + 1
    {
      store, writes := store - {k}, writes + 1;
    }

    method EnsureResourceQuotaInNamespace(c: ClusterQuota, listed: Store, ns: string, names: seq<string>, generated: string)
      returns (kept: string)
      requires Present(listed, ns, names)
      modifies this
      ensures var e := Ensure(c, listed, ns, names, generated, old(store));
              store == e.store && kept == e.kept && writes == old(writes) + e.writes
    {
      var matched: Option<string> := None;
      for i := 0 to |names|
        invariant writes >= old(writes)
        invariant Scan(store, matched, writes - old(writes)) == ScanTo(listed, ns, names, i, old(store))
      {
        var k := (ns, names[i]);
        var quota := listed[k];
        if quota.owner.Some? && quota.owner.value.kind != KIND {
          Put(k, Disowned(quota));
          continue;
        }
        if quota.owner.None? {
          Put(k, Disowned(quota));
          continue;
        }
        if matched.None? {
          matched := Some(names[i]);
          continue;
        }
        Delete(k);
      }
      if matched.None? || (ns, matched.value) !in listed {
        Put((ns, generated), Fresh(c));
        return generated;
      }
      var quota := listed[(ns, matched.value)];
      if !Clean(c, quota) {
        Put((ns, matched.value), Repaired(c, quota));
      }
      return matched.value;
    }

    method Withdraw(ns: string, names: seq<string>)
      modifies this
      ensures forall k :: k in store <==> k in old(store) && !(k.0 == ns && k.1 in names)
      ensures forall k :: k in store ==> store[k] == old(store)[k]
      ensures writes == old(writes) + |names|
    {
      for i := 0 to |names|
        invariant forall k :: k in store <==> k in old(store) && !(k.0 == ns && k.1 in names[..i])
        invariant forall k :: k in store ==> store[k] == old(store)[k]
        invariant writes == old(writes) + i
      {
        Delete((ns, names[i]));
        assert names[..i + 1] == names[..i] + [names[i]];
      }
      assert names[..|names|] == names;
    }

    /** Whether a quota has been withdrawn, once the namespaces `left` are all that is left to do. */
    ghost predicate Gone(listing: Listing, matched: seq<string>, left: set<string>, k: Key) {
      k.0 in Surplus(listing, matched) - left && k.1 in NamesIn(listing, k.0)
    }

    method WithdrawSurplus(listing: Listing, matched: seq<string>)
      modifies this
      ensures store == Withdrawn(old(store), listing, matched)
      ensures Surplus(listing, matched) == {} ==> writes == old(writes)
    {
      var left := Surplus(listing, matched);
      while left != {}
        invariant left <= Surplus(listing, matched)
        invariant forall k :: k in store <==> k in old(store) && !Gone(listing, matched, left, k)
        invariant forall k :: k in store ==> store[k] == old(store)[k]
        invariant Surplus(listing, matched) == {} ==> writes == old(writes)
        decreases left
      {
        var ns :| ns in left;
        Withdraw(ns, listing[ns]);
        left := left - {ns};
      }
    }

    /** Reconcile, without the status: what it leaves, and that it makes no request beyond those for the
        matched namespaces if nothing is to be withdrawn. */
    method Reconcile(t: Round) returns (kept: seq<string>)
      requires store == t.listed && forall ns :: Present(t.listed, ns, NamesIn(t.listing, ns))
      modifies this
      ensures store == Reconciled(t) && kept == Kept(t)
      ensures Surplus(t.listing, t.matched) == {} ==> writes == old(writes) + EnsureTo(t, |t.matched|).writes
    {
      kept := [];
      for i := 0 to |t.matched|
        invariant writes >= old(writes)
        invariant Pass(store, kept, writes - old(writes)) == EnsureTo(t, i)
      {
        var ns := t.matched[i];
        var name := EnsureResourceQuotaInNamespace(t.c, t.listed, ns, NamesIn(t.listing, ns), t.generated(ns));
        kept := kept + [name];
      }
      WithdrawSurplus(t.listing, t.matched);
    }
  }
}
