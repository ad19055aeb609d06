/** The transformers of everything that carries a pod template: placement, the service account's idea of
    its namespace, and the resolver (pkg/convert/placement.go, saprojection.go and dnsconfig.go).
 */
module PodTemplates {
  import opened Names
  import opened Chain
  import opened Wrappers

  const NAMESPACE_ANNOTATION := "kubezoo.io/tenant-namespace"
  const NAMESPACE_FIELD := "metadata.annotations['kubezoo.io/tenant-namespace']"
  const ACCOUNT_VOLUME_PREFIX := "kube-api-access-"
  const OWN_VOLUME := "kube-api-access-kubezoo"

  type Pairs = map<string, string>

  /** One file of a downward API projection, and the field it is filled from. */
  datatype File = File(path: string, field: string)

  datatype Source = Downward(files: seq<File>) | OtherSource(what: string)

  datatype VolumeSource = Projected(sources: seq<Source>) | OtherVolume(what: string)

  datatype Volume = Volume(name: string, source: VolumeSource)

  datatype Placement = Placement(
    nodeSelector: Pairs,
    tolerations: seq<string>,
    schedulerName: string,
    affinity: Option<string>,
    topologySpread: seq<string>,
    nodeName: string)

  datatype Dns = Dns(policy: string, nameservers: seq<string>, searches: seq<string>, options: seq<string>)

  /** A Pod, or anything that carries a template for pods: the namespace it is in upstream, and the metadata
      and spec of the template. */
  datatype Carrier = Carrier(
    isPod: bool,
    namespace: string,
    annotations: Pairs,
    placement: Placement,
    automount: Option<bool>,
    volumes: seq<Volume>,
    dns: Dns)

  /** What the platform decides for a tenant: its node pool, and its resolver if it has one. */
  datatype Platform = Platform(pool: string -> Placement, resolver: Option<(string, string)>)

  function TenantNamespace(t: TenantId, c: Carrier): string {
    TrimTenantIDPrefix(t, c.namespace)
  }

  // ------------------------------------------------------------------ placement

  function Placed(p: Platform, t: TenantId, c: Carrier): Carrier {
    if c.isPod then c else c.(placement := p.pool(t).(nodeName := ""))
  }

  // ------------------------------------------------------------------ the service account volume

  predicate IsAccountVolume(v: Volume) {
    StartsWith(v.name, ACCOUNT_VOLUME_PREFIX)
  }

  function RetargetedFile(f: File): File {
    if f.path == "namespace" then f.(field := NAMESPACE_FIELD) else f
  }

  function RetargetedFiles(fs: seq<File>): (r: seq<File>)
    ensures |r| == |fs| && forall i :: 0 <= i < |fs| ==> r[i] == RetargetedFile(fs[i])
  {
    seq(|fs|, i requires 0 <= i < |fs| => RetargetedFile(fs[i]))
  }

  function RetargetedSource(s: Source): Source {
    if s.Downward? then Downward(RetargetedFiles(s.files)) else s
  }

  function RetargetedSources(ss: seq<Source>): (r: seq<Source>)
    ensures |r| == |ss| && forall i :: 0 <= i < |ss| ==> r[i] == RetargetedSource(ss[i])
  {
    seq(|ss|, i requires 0 <= i < |ss| => RetargetedSource(ss[i]))
  }

  function Retargeted(v: Volume): Volume {
    if v.source.Projected? then v.(source := Projected(RetargetedSources(v.source.sources))) else v
  }

  const TOKEN_VOLUME := Volume(OWN_VOLUME, Projected([
    OtherSource("serviceAccountToken token 3607"),
    OtherSource("configMap kube-root-ca.crt ca.crt"),
    Downward([File("namespace", NAMESPACE_FIELD)])]))

  /** The first volume upstream would take for the service account's, if there is one. */
  function AccountVolume(vs: seq<Volume>, i: nat): Option<nat>
    requires i <= |vs|
    ensures var r := AccountVolume(vs, i);
            && (r.Some? ==> i <= r.value < |vs| && IsAccountVolume(vs[r.value])
                            && forall j :: i <= j < r.value ==> !IsAccountVolume(vs[j]))
            && (r.None? ==> forall j :: i <= j < |vs| ==> !IsAccountVolume(vs[j]))
    decreases |vs| - i
  {
    if i == |vs| then None else if IsAccountVolume(vs[i]) then Some(i) else AccountVolume(vs, i + 1)
  }

  function ProjectedVolumes(vs: seq<Volume>): seq<Volume> {
    var at := AccountVolume(vs, 0);
    if at.Some? then vs[at.value := Retargeted(vs[at.value])] else vs + [TOKEN_VOLUME]
  }

  function Stamped(t: TenantId, c: Carrier): Carrier {
    if TenantNamespace(t, c) == "" then c
    else c.(annotations := c.annotations[NAMESPACE_ANNOTATION := TenantNamespace(t, c)])
  }

  function ProjectedNamespace(t: TenantId, c: Carrier): Carrier {
    if c.isPod || TenantNamespace(t, c) == "" then Stamped(t, c)
    else if c.automount == Some(false) then Stamped(t, c)
    else Stamped(t, c).(volumes := ProjectedVolumes(c.volumes))
  }

  function Unstamped(c: Carrier): Carrier {
    c.(annotations := c.annotations - {NAMESPACE_ANNOTATION})
  }

  /** The nested loops of the source, in place. */
  method RetargetNamespaceSource(v: Volume) returns (r: Volume)
    ensures r == Retargeted(v)
  {
    r := v;
    if !v.source.Projected? {
      return;
    }
    var sources := v.source.sources;
    for i := 0 to |sources|
      invariant |sources| == |v.source.sources|
      invariant forall a :: 0 <= a < i ==> sources[a] == RetargetedSource(v.source.sources[a])
      invariant forall a :: i <= a < |sources| ==> sources[a] == v.source.sources[a]
    {
      if sources[i].Downward? {
        var files := sources[i].files;
        for j := 0 to |files|
          invariant |files| == |sources[i].files|
          invariant forall b :: 0 <= b < j ==> files[b] == RetargetedFile(sources[i].files[b])
          invariant forall b :: j <= b < |files| ==> files[b] == sources[i].files[b]
        {
          if files[j].path == "namespace" {
            files := files[j := files[j].(field := NAMESPACE_FIELD)];
          }
        }
        assert files == RetargetedFiles(sources[i].files);
        sources := sources[i := Downward(files)];
      }
    }
    assert sources == RetargetedSources(v.source.sources);
    r := v.(source := Projected(sources));
  }

  method Project(t: TenantId, c: Carrier) returns (r: Carrier)
    requires !c.isPod
    ensures r == ProjectedNamespace(t, c)
  {
    var namespace := TrimTenantIDPrefix(t, c.namespace);
    if namespace == "" {
      return c;
    }
    r := c.(annotations := c.annotations[NAMESPACE_ANNOTATION := namespace]);
    if r.automount == Some(false) {
      return;
    }
    for i := 0 to |r.volumes|
      invariant forall j :: 0 <= j < i ==> !IsAccountVolume(c.volumes[j])
      invariant r == Stamped(t, c)
    {
      if IsAccountVolume(r.volumes[i]) {
        var volume := RetargetNamespaceSource(r.volumes[i]);
        r := r.(volumes := r.volumes[i := volume]);
        return;
      }
    }
    r := r.(volumes := r.volumes + [TOKEN_VOLUME]);
  }

  // ------------------------------------------------------------------ the resolver

  /** The whole resolver configuration, or none of it. */
  function Resolving(p: Platform, t: TenantId, c: Carrier): Carrier {
    var namespace := TenantNamespace(t, c);
    if c.isPod || namespace == "" || p.resolver.None? || p.resolver.value.0 == "" || p.resolver.value.1 == "" then c
    else
      var (nameserver, domain) := p.resolver.value;
      c.(dns := Dns("None", [nameserver], [namespace + ".svc." + domain, "svc." + domain, domain], ["ndots:5"]))
  }

  // ------------------------------------------------------------------ the chain

  function PodChain(p: Platform, t: TenantId): seq<Transformer<Carrier>> {
    [Transformer((c: Carrier) => Some(Placed(p, t, c)), (c: Carrier) => Some(c)),
     Transformer((c: Carrier) => Some(ProjectedNamespace(t, c)), (c: Carrier) => Some(Unstamped(c))),
     Transformer((c: Carrier) => Some(Resolving(p, t, c)), (c: Carrier) => Some(c))]
  }

  /** What is stored for a carrier the tenant wrote, and what the tenant reads of a stored one. */
  function ToUpstream(p: Platform, t: TenantId, c: Carrier): Carrier {
    Resolving(p, t, ProjectedNamespace(t, Placed(p, t, c)))
  }

  lemma ChainIsToUpstream(p: Platform, t: TenantId, c: Carrier)
    ensures Forward(PodChain(p, t), c) == Some(ToUpstream(p, t, c))
    ensures Backward(PodChain(p, t), c) == Some(Unstamped(c))
  {
    var chain := PodChain(p, t);
    assert ForwardTo(chain, 1, c) == Some(Placed(p, t, c));
    assert ForwardTo(chain, 2, c) == Some(ProjectedNamespace(t, Placed(p, t, c)));
    assert ForwardTo(chain, 3, c) == Some(ToUpstream(p, t, c));
    assert BackwardFrom(chain, 1, Unstamped(c)) == Some(Unstamped(c));
    assert BackwardFrom(chain, 2, c) == Some(Unstamped(c));
  }

  // ------------------------------------------------------------------ reading and writing back

  lemma RetargetingTwice(v: Volume)
    ensures Retargeted(Retargeted(v)) == Retargeted(v) && IsAccountVolume(Retargeted(v)) == IsAccountVolume(v)
  {
    if v.source.Projected? {
      var once := RetargetedSources(v.source.sources);
      var twice := RetargetedSources(once);
      forall i | 0 <= i < |once| ensures twice[i] == once[i] {
        if once[i].Downward? {
          assert RetargetedFiles(once[i].files) == once[i].files;
        }
      }
      assert twice == once;
    }
  }

  lemma OwnVolumeIsRetargeted()
    ensures IsAccountVolume(TOKEN_VOLUME) && Retargeted(TOKEN_VOLUME) == TOKEN_VOLUME
  {
    var sources := TOKEN_VOLUME.source.sources;
    assert RetargetedFiles(sources[2].files) == sources[2].files;
    assert RetargetedSources(sources) == sources;
    assert OWN_VOLUME == ACCOUNT_VOLUME_PREFIX + "kubezoo";
    assert OWN_VOLUME[..|ACCOUNT_VOLUME_PREFIX|] == ACCOUNT_VOLUME_PREFIX;
  }

  lemma FirstIsAt(vs: seq<Volume>, i: nat, at: nat)
    requires i <= at < |vs| && IsAccountVolume(vs[at]) && forall j :: i <= j < at ==> !IsAccountVolume(vs[j])
    ensures AccountVolume(vs, i) == Some(at)
  {
  }

  /** Projecting again changes nothing, so the list of volumes never grows. */
  lemma ProjectingTwice(vs: seq<Volume>)
    ensures ProjectedVolumes(ProjectedVolumes(vs)) == ProjectedVolumes(vs)
  {
    var once, at := ProjectedVolumes(vs), AccountVolume(vs, 0);
    OwnVolumeIsRetargeted();
    if at.Some? {
      RetargetingTwice(vs[at.value]);
      FirstIsAt(once, 0, at.value);
    } else {
      FirstIsAt(once, 0, |vs|);
    }
  }

  predicate NamespaceKnown(t: TenantId, c: Carrier) {
    TenantNamespace(t, c) != ""
  }

  /** Writing back what was read stores what is stored already, for any list of volumes, exactly when the
      object has a namespace or did not come with the platform's annotation. */
  lemma WritingBackIsStableIff(p: Platform, t: TenantId, c: Carrier)
    ensures var stored := ToUpstream(p, t, c);
            ToUpstream(p, t, Unstamped(stored)) == stored
            <==> NamespaceKnown(t, c) || NAMESPACE_ANNOTATION !in c.annotations
  {
    var stored := ToUpstream(p, t, c);
    ProjectingTwice(c.volumes);
    if NamespaceKnown(t, c) {
      var annotations := c.annotations[NAMESPACE_ANNOTATION := TenantNamespace(t, c)];
      assert stored.annotations == annotations;
      assert (annotations - {NAMESPACE_ANNOTATION})[NAMESPACE_ANNOTATION := TenantNamespace(t, c)] == annotations;
    } else {
      assert stored.annotations == c.annotations;
    }
  }

  /** Any number of reads and writes. */
  function RoundTrips(p: Platform, t: TenantId, stored: Carrier, n: nat): Carrier {
    if n == 0 then stored else ToUpstream(p, t, Unstamped(RoundTrips(p, t, stored, n - 1)))
  }

  lemma {:induction false} StableForEver(p: Platform, t: TenantId, stored: Carrier, n: nat)
    requires ToUpstream(p, t, Unstamped(stored)) == stored
    ensures RoundTrips(p, t, stored, n) == stored
    decreases n
  {
    if n > 0 {
      StableForEver(p, t, stored, n - 1);
    }
  }

  /** A stored object never drifts, however often it is read, and written back as it was read. */
  lemma NeverDrifts(p: Platform, t: TenantId, c: Carrier, n: nat)
    requires NamespaceKnown(t, c) || NAMESPACE_ANNOTATION !in c.annotations
    ensures RoundTrips(p, t, ToUpstream(p, t, c), n) == ToUpstream(p, t, c)
  {
    WritingBackIsStableIff(p, t, c);
    StableForEver(p, t, ToUpstream(p, t, c), n);
  }

  // ------------------------------------------------------------------ what the pods will find

  /** A volume that puts a file named "namespace" into the pod. */
  ghost predicate HasNamespaceFile(v: Volume) {
    v.source.Projected? && exists i, j :: NamespaceFile(v.source.sources, i, j)
  }

  predicate NamespaceFile(sources: seq<Source>, i: int, j: int) {
    0 <= i < |sources| && sources[i].Downward? && 0 <= j < |sources[i].files| && sources[i].files[j].path == "namespace"
  }

  /** A volume whose namespace file is there, and filled from the stamped annotation. */
  ghost predicate ReadsAnnotation(v: Volume) {
    && HasNamespaceFile(v)
    && forall i, j :: NamespaceFile(v.source.sources, i, j) ==> v.source.sources[i].files[j].field == NAMESPACE_FIELD
  }

  /** Retargeting makes a volume read the annotation exactly if it has a namespace file at all. */
  lemma RetargetedReadsIff(v: Volume)
    ensures ReadsAnnotation(Retargeted(v)) <==> HasNamespaceFile(v)
  {
    if v.source.Projected? {
      var was, now := v.source.sources, RetargetedSources(v.source.sources);
      assert forall i, j :: NamespaceFile(now, i, j) <==> NamespaceFile(was, i, j);
    }
  }

  lemma OwnVolumeReads()
    ensures ReadsAnnotation(TOKEN_VOLUME)
  {
    assert NamespaceFile(TOKEN_VOLUME.source.sources, 2, 0);
    RetargetedReadsIff(TOKEN_VOLUME);
    OwnVolumeIsRetargeted();
  }

  /** The first service account volume is the one that is mounted. It reads the annotation exactly if the
      tenant brought none, or one with a namespace file in it; no other volume is touched, and at most one
      is added, at the end. */
  lemma FirstAccountVolumeReadsIff(vs: seq<Volume>)
    ensures var volumes, own := ProjectedVolumes(vs), AccountVolume(vs, 0);
            var first := AccountVolume(volumes, 0);
            && first.Some?
            && (ReadsAnnotation(volumes[first.value]) <==> (own.Some? ==> HasNamespaceFile(vs[own.value])))
            && (if own.Some? then |volumes| == |vs| && first == own else volumes == vs + [TOKEN_VOLUME])
            && (forall i :: 0 <= i < |vs| && i != first.value ==> volumes[i] == vs[i])
  {
    var volumes, own := ProjectedVolumes(vs), AccountVolume(vs, 0);
    OwnVolumeIsRetargeted();
    OwnVolumeReads();
    if own.Some? {
      RetargetingTwice(vs[own.value]);
      RetargetedReadsIff(vs[own.value]);
      FirstIsAt(volumes, 0, own.value);
    } else {
      FirstIsAt(volumes, 0, |vs|);
    }
  }

  /** What the pods of a stored workload find under "namespace" where their service account is mounted: the
      value of the stamped annotation, or nothing. */
  ghost predicate PodsRead(stored: Carrier, value: string) {
    var first := AccountVolume(stored.volumes, 0);
    && first.Some? && ReadsAnnotation(stored.volumes[first.value])
    && NAMESPACE_ANNOTATION in stored.annotations && stored.annotations[NAMESPACE_ANNOTATION] == value
  }

  /** The pods of a workload that has not asked for no token read the tenant's name of their namespace
      exactly if the workload brought no service account volume of its own, or one with a namespace file;
      and a workload that has asked for none keeps its volumes as they are. */
  lemma PodsReadTheTenantsNamespaceIff(p: Platform, t: TenantId, c: Carrier)
    requires !c.isPod && NamespaceKnown(t, c)
    ensures c.automount == Some(false) ==> ToUpstream(p, t, c).volumes == c.volumes
    ensures c.automount != Some(false) ==>
              var own := AccountVolume(c.volumes, 0);
              PodsRead(ToUpstream(p, t, c), TrimTenantIDPrefix(t, c.namespace))
              <==> (own.Some? ==> HasNamespaceFile(c.volumes[own.value]))
    ensures var stored := ToUpstream(p, t, c);
            NAMESPACE_ANNOTATION in stored.annotations
            && stored.annotations[NAMESPACE_ANNOTATION] == TrimTenantIDPrefix(t, c.namespace)
  {
    FirstAccountVolumeReadsIff(c.volumes);
  }

  /** The names a resolver tries for a short one. */
  function Candidates(dns: Dns, name: string): (names: seq<string>)
    ensures |names| == |dns.searches|
  {
    seq(|dns.searches|, i requires 0 <= i < |dns.searches| => name + "." + dns.searches[i])
  }

  predicate HasResolver(p: Platform) {
    p.resolver.Some? && p.resolver.value.0 != "" && p.resolver.value.1 != ""
  }

  /** A workload of a tenant with a resolver asks that one alone, and finds a service of its own namespace,
      and then one of another namespace, under the tenant's names; without a resolver, nothing is changed,
      never half of it. */
  lemma PodsResolveTheTenantsNames(p: Platform, t: TenantId, c: Carrier, service: string, other: string)
    requires !c.isPod && NamespaceKnown(t, c)
    ensures var dns := ToUpstream(p, t, c).dns;
            if !HasResolver(p) then dns == c.dns
            else
              var (nameserver, domain) := p.resolver.value;
              && dns.policy == "None" && dns.nameservers == [nameserver] && |dns.searches| == 3
              && Candidates(dns, service)[0] == service + "." + TrimTenantIDPrefix(t, c.namespace) + ".svc." + domain
              && Candidates(dns, service + "." + other)[1] == service + "." + other + ".svc." + domain
  {
    if HasResolver(p) {
      var (nameserver, domain) := p.resolver.value;
      var namespace := TrimTenantIDPrefix(t, c.namespace);
      assert service + "." + (namespace + ".svc." + domain) == service + "." + namespace + ".svc." + domain;
      assert service + "." + other + "." + ("svc." + domain) == service + "." + other + ".svc." + domain;
    }
  }

  /** Where a workload's pods run is the platform's decision alone: nothing the tenant wrote about it
      survives, and a live pod is not moved. */
  lemma PlacementIsThePlatforms(p: Platform, t: TenantId, c: Carrier, other: Placement)
    ensures !c.isPod ==> ToUpstream(p, t, c) == ToUpstream(p, t, c.(placement := other))
    ensures !c.isPod ==> ToUpstream(p, t, c).placement == p.pool(t).(nodeName := "")
    ensures c.isPod ==> ToUpstream(p, t, c) == Stamped(t, c)
  {
  }
}
