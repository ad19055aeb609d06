/** The tenant prefix: how a tenant's names are spelled on the shared upstream cluster.

Cluster-scoped names carry the tenant id in front, `<tid>-name`; namespaced objects keep
their name and carry the prefix on their namespace. A namespace may also be addressed by
its upstream spelling, because that is what an in-cluster workload reads about itself.
 */
module Names {

  /** Tenant ids are exactly six characters long. */
  const TENANT_ID_LENGTH := 6

  type TenantId = t: string | |t| == TENANT_ID_LENGTH witness "111111"

  predicate StartsWith(s: string, prefix: string) {
    |prefix| <= |s| && s[..|prefix|] == prefix
  }

  function Prefix(t: TenantId): string {
    t + "-"
  }

  predicate Carries(t: TenantId, s: string) {
    StartsWith(s, Prefix(t))
  }

  function AddTenantIDPrefix(t: TenantId, s: string): string {
    Prefix(t) + s
  }

  /** Takes one leading prefix off, and leaves anything else alone. */
  function TrimTenantIDPrefix(t: TenantId, s: string): string {
    if Carries(t, s) then s[|Prefix(t)|..] else s
  }

  /** Leaves "" and an already prefixed namespace alone. */
  function UpstreamNamespace(t: TenantId, ns: string): string {
    if ns == "" || Carries(t, ns) then ns else AddTenantIDPrefix(t, ns)
  }

  lemma TrimUndoesAdd(t: TenantId, s: string)
    ensures Carries(t, AddTenantIDPrefix(t, s))
    ensures TrimTenantIDPrefix(t, AddTenantIDPrefix(t, s)) == s
  {
  }

  lemma AddUndoesTrim(t: TenantId, s: string)
    requires Carries(t, s)
    ensures AddTenantIDPrefix(t, TrimTenantIDPrefix(t, s)) == s
  {
  }

  lemma AddIsInjective(t: TenantId, a: string, b: string)
    requires AddTenantIDPrefix(t, a) == AddTenantIDPrefix(t, b)
    ensures a == b
  {
    TrimUndoesAdd(t, a);
    TrimUndoesAdd(t, b);
  }

  /** No name carries two tenants' prefixes: the ids have one length. */
  lemma PrefixesAreDisjoint(t: TenantId, u: TenantId, s: string)
    requires Carries(t, s) && Carries(u, s)
    ensures t == u
  {
    assert Prefix(t)[..TENANT_ID_LENGTH] == t && Prefix(u)[..TENANT_ID_LENGTH] == u;
  }

  /** A namespace resolves to a prefixed name whichever of its two spellings was used, resolving is
      idempotent, and two spellings resolve to one namespace exactly when they trim to one name. */
  lemma UpstreamNamespaceResolves(t: TenantId, ns: string, other: string)
    requires ns != "" && other != ""
    ensures Carries(t, UpstreamNamespace(t, ns))
    ensures UpstreamNamespace(t, UpstreamNamespace(t, ns)) == UpstreamNamespace(t, ns)
    ensures TrimTenantIDPrefix(t, UpstreamNamespace(t, ns)) == TrimTenantIDPrefix(t, ns)
    ensures UpstreamNamespace(t, ns) == UpstreamNamespace(t, other)
            <==> TrimTenantIDPrefix(t, ns) == TrimTenantIDPrefix(t, other)
  {
  }

  const TENANT_LABEL := "kubezoo.io/tenant"

  /** The invariant of the shared cluster: a namespace is labelled with a tenant exactly if its name carries
      that tenant's prefix, and no name carries it twice. */
  ghost predicate LabelledByName(name: string, labels: map<string, string>) {
    && (forall t: TenantId :: Carries(t, name) <==> TENANT_LABEL in labels && labels[TENANT_LABEL] == t)
    && (forall t: TenantId :: Carries(t, name) ==>
          TrimTenantIDPrefix(t, name) != "" && !Carries(t, TrimTenantIDPrefix(t, name)))
  }
}
