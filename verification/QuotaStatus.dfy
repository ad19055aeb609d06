/** The status of a ClusterResourceQuota: the usage of the kept quotas added up
    (pkg/clusterresourcequota/controllers/clusterresourcequota_controller.go).
 */
module QuotaStatus {
  import opened Quota

  function Add(a: Amounts, b: Amounts): Amounts {
    map r | r in a.Keys + b.Keys :: (if r in a then a[r] else 0) + (if r in b then b[r] else 0)
  }

  function Total(used: seq<Amounts>): Amounts {
    if used == [] then map[] else Add(Total(used[..|used| - 1]), used[|used| - 1])
  }

  function Amount(a: Amounts, r: string): int {
    if r in a then a[r] else 0
  }

  function Sum(used: seq<Amounts>, r: string): int {
    if used == [] then 0 else Sum(used[..|used| - 1], r) + Amount(used[|used| - 1], r)
  }

  predicate Mentions(used: seq<Amounts>, r: string) {
    exists i :: 0 <= i < |used| && r in used[i]
  }

  /** The total names the resources any of the amounts names, each with the sum of its amounts. */
  lemma {:induction false} TotalIsSum(used: seq<Amounts>, r: string)
    ensures r in Total(used) <==> Mentions(used, r)
    ensures Amount(Total(used), r) == Sum(used, r)
    decreases |used|
  {
    if used != [] {
      var front := used[..|used| - 1];
      TotalIsSum(front, r);
      assert used == front + [used[|used| - 1]];
      if Mentions(front, r) {
        var i :| 0 <= i < |front| && r in front[i];
        assert r in used[i];
      }
    }
  }

  lemma {:induction false} SumWithout(used: seq<Amounts>, i: nat, r: string)
    requires i < |used|
    ensures Sum(used, r) == Sum(used[..i] + used[i + 1..], r) + Amount(used[i], r)
    decreases |used|
  {
    var rest := used[..i] + used[i + 1..];
    if i == |used| - 1 {
      assert rest == used[..i];
    } else {
      var front := used[..|used| - 1];
      SumWithout(front, i, r);
      assert rest[..|rest| - 1] == front[..i] + front[i + 1..];
    }
  }

  lemma RemoveOne(b: seq<Amounts>, i: nat)
    requires i < |b|
    ensures multiset(b) == multiset(b[..i] + b[i + 1..]) + multiset{b[i]}
  {
    assert b == b[..i] + [b[i]] + b[i + 1..];
  }

  lemma {:induction false} SumIgnoresOrder(a: seq<Amounts>, b: seq<Amounts>, r: string)
    requires multiset(a) == multiset(b)
    ensures Sum(a, r) == Sum(b, r)
    decreases |a|
  {
    assert |a| == |multiset(a)| && |b| == |multiset(b)|;
    if a != [] {
      var front, last := a[..|a| - 1], a[|a| - 1];
      assert a == front + [last];
      assert last in multiset(b);
      var i :| 0 <= i < |b| && b[i] == last;
      RemoveOne(b, i);
      assert multiset(front) == multiset(a) - multiset{last};
      assert multiset(b[..i] + b[i + 1..]) == multiset(b) - multiset{last};
      SumWithout(b, i, r);
      SumIgnoresOrder(front, b[..i] + b[i + 1..], r);
    }
  }

  /** The usage reported does not depend on the order in which the quotas are added up. */
  lemma TotalIgnoresOrder(a: seq<Amounts>, b: seq<Amounts>)
    requires multiset(a) == multiset(b)
    ensures Total(a) == Total(b)
  {
    forall r
      ensures r in Total(a) <==> r in Total(b)
      ensures Amount(Total(a), r) == Amount(Total(b), r)
    {
      TotalIsSum(a, r);
      TotalIsSum(b, r);
      SumIgnoresOrder(a, b, r);
      MentionsIgnoresOrder(a, b, r);
    }
    assert forall r :: r in Total(a) ==> Total(a)[r] == Amount(Total(a), r);
  }

  lemma MentionsIgnoresOrder(a: seq<Amounts>, b: seq<Amounts>, r: string)
    requires multiset(a) == multiset(b)
    ensures Mentions(a, r) <==> Mentions(b, r)
  {
    if Mentions(a, r) {
      var i :| 0 <= i < |a| && r in a[i];
      assert a[i] in multiset(b);
    }
    if Mentions(b, r) {
      var i :| 0 <= i < |b| && r in b[i];
      assert b[i] in multiset(a);
    }
  }

  // ------------------------------------------------------------------ reporting it

  /** The usage of the quotas that were kept, namespace by namespace. */
  function UsedBy(store: Store, matched: seq<string>, kept: seq<string>): (used: seq<Amounts>)
    requires |matched| == |kept|
    ensures |used| == |kept|
  {
    seq(|kept|, i requires 0 <= i < |kept| =>
      if (matched[i], kept[i]) in store then store[(matched[i], kept[i])].used else map[])
  }

  function Reported(c: ClusterQuota, used: seq<Amounts>): ClusterQuota {
    c.(statusHard := c.hard, statusUsed := Total(used))
  }

  /** syncStatus: the status is written only if it is not what it should be. */
  method SyncStatus(c: ClusterQuota, used: seq<Amounts>) returns (now: ClusterQuota, wrote: bool)
    ensures now == Reported(c, used) && (wrote <==> now != c)
  {
    var total: Amounts := map[];
    for i := 0 to |used|
      invariant total == Total(used[..i])
    {
      total := Add(total, used[i]);
      assert used[..i + 1][..i] == used[..i];
    }
    assert used[..|used|] == used;
    wrote := c.hard != c.statusHard || c.statusUsed != total;
    now := if wrote then c.(statusHard := c.hard, statusUsed := total) else c;
  }

  /** The usage reported for a resource is the sum of what the kept quotas report for it, a quota that was
      just created reporting nothing. */
  lemma ReportedIsTheSumOfTheKept(t: Round, r: string)
    requires RoundOk(t)
    ensures var used := UsedBy(Reconciled(t), t.matched, Kept(t));
            && Amount(Reported(t.c, used).statusUsed, r) == Sum(used, r)
            && forall j :: 0 <= j < |t.matched| ==>
                 used[j] == if (t.matched[j], Kept(t)[j]) in t.listed then t.listed[(t.matched[j], Kept(t)[j])].used else map[]
  {
    var used := UsedBy(Reconciled(t), t.matched, Kept(t));
    TotalIsSum(used, r);
    forall j | 0 <= j < |t.matched|
      ensures used[j] == if (t.matched[j], Kept(t)[j]) in t.listed then t.listed[(t.matched[j], Kept(t)[j])].used else map[]
    {
      ReconciledAt(t, (t.matched[j], Kept(t)[j]));
    }
  }

  /** A second reconcile does not write the status either. */
  lemma SecondSyncWritesNothing(t: Round, next: Round)
    requires RoundOk(t) && RoundOk(next) && Follows(next, t)
    requires next.c == Reported(t.c, UsedBy(Reconciled(t), t.matched, Kept(t)))
    ensures Reported(next.c, UsedBy(Reconciled(next), next.matched, Kept(next))) == next.c
  {
    SecondReconcileWritesNothing(t, next);
  }
}
