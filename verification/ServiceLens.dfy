/** A Service seen through the gateway: the platform's metadata is hidden, the address is the one the
    tenant can reach, and every write is guarded against the stored object (pkg/convert/hiddenmeta.go,
    pkg/convert/service.go and the guards of pkg/proxy/proxy.go).

Reading and writing back form a lens between the stored object and the tenant's view of it.
 */
module ServiceLens {
  import opened Metadata
  import opened RetryLoop
  import opened Wrappers

  const CLUSTER_IP_ANNOTATION := "kubezoo.io/cluster-ip"
  const LAST_APPLIED := "kubectl.kubernetes.io/last-applied-configuration"
  const HEADLESS := "None"

  datatype Kind = ClusterIP | LoadBalancer | NodePort | ExternalName

  datatype Port = Port(name: string, number: nat, nodePort: nat)

  /** A Service, with everything the guards do not look at in `spec`. */
  datatype Service = Service(
    labels: Pairs,
    annotations: Pairs,
    kind: Kind,
    clusterIP: string,
    clusterIPs: seq<string>,
    externalIPs: seq<string>,
    ports: seq<Port>,
    healthCheckNodePort: nat,
    spec: string)

  /** Which keys are hidden, which strings are addresses, and how a last-applied configuration looks once
      the hidden keys have been taken out of the copy of the object it holds. */
  datatype Platform = Platform(hides: string -> bool, isAddress: string -> bool, scrub: string -> string)

  /** The platform's own keys are always hidden, and "None" is not an address. */
  ghost predicate Sane(p: Platform) {
    p.hides(CLUSTER_IP_ANNOTATION) && !p.isAddress(HEADLESS)
  }

  // ------------------------------------------------------------------ hidden metadata

  method WithoutHidden(p: Platform, m: Pairs) returns (visible: Pairs)
    ensures visible == Visible(p.hides, m)
  {
    visible := map[];
    var left := m.Keys;
    while left != {}
      invariant left <= m.Keys
      invariant visible == map k | k in m && k !in left && !p.hides(k) :: m[k]
      decreases left
    {
      var k :| k in left;
      left := left - {k};
      if !p.hides(k) {
        visible := visible[k := m[k]];
      }
    }
  }

  method RestoreHidden(p: Platform, submitted: Pairs, stored: Pairs) returns (restored: Pairs)
    ensures Visible(p.hides, restored) == Visible(p.hides, submitted) && Hidden(p.hides, restored) == Hidden(p.hides, stored)
    ensures restored == Visible(p.hides, submitted) + Hidden(p.hides, stored)
  {
    restored := WithoutHidden(p, submitted);
    var left := stored.Keys;
    while left != {}
      invariant left <= stored.Keys
      invariant restored == Visible(p.hides, submitted) + HiddenSoFar(p, stored, left)
      decreases left
    {
      var k :| k in left;
      HiddenGrows(p, stored, left, k);
      left := left - {k};
      if p.hides(k) {
        restored := restored[k := stored[k]];
      }
    }
    assert HiddenSoFar(p, stored, {}) == Hidden(p.hides, stored);
    SplitsBack(p.hides, submitted, stored);
  }

  function HiddenSoFar(p: Platform, m: Pairs, left: set<string>): Pairs {
    map k | k in m && k !in left && p.hides(k) :: m[k]
  }

  lemma HiddenGrows(p: Platform, m: Pairs, left: set<string>, k: string)
    requires k in left && k in m
    ensures HiddenSoFar(p, m, left - {k})
            == if p.hides(k) then HiddenSoFar(p, m, left)[k := m[k]] else HiddenSoFar(p, m, left)
  {
  }

  function Scrubbed(p: Platform, m: Pairs): Pairs {
    if LAST_APPLIED in m && m[LAST_APPLIED] != "" then m[LAST_APPLIED := p.scrub(m[LAST_APPLIED])] else m
  }

  // ------------------------------------------------------------------ reading

  /** The address to show instead of the upstream one, if there is one. */
  function TenantClusterIP(p: Platform, s: Service): Option<string> {
    if s.clusterIP == HEADLESS || s.clusterIP == "" || CLUSTER_IP_ANNOTATION !in s.annotations then None
    else
      var address := s.annotations[CLUSTER_IP_ANNOTATION];
      if address == "" || !p.isAddress(address) || address == s.clusterIP then None else Some(address)
  }

  function WithAddress(s: Service, address: string): Service {
    s.(clusterIP := address, clusterIPs := if s.clusterIPs == [] then [] else s.clusterIPs[0 := address])
  }

  function Shown(p: Platform, s: Service): Service {
    var address := TenantClusterIP(p, s);
    if address.Some? then WithAddress(s, address.value) else s
  }

  function Stripped(p: Platform, s: Service): Service {
    s.(labels := Visible(p.hides, s.labels), annotations := Scrubbed(p, Visible(p.hides, s.annotations)))
  }

  /** What a tenant reads. */
  function View(p: Platform, s: Service): Service {
    Stripped(p, Shown(p, s))
  }

  // ------------------------------------------------------------------ writing

  predicate ExternalIPsStay(s: Service, stored: Service) {
    forall i :: 0 <= i < |s.externalIPs| ==> s.externalIPs[i] in stored.externalIPs
  }

  predicate HasNodePort(s: Service, port: nat) {
    exists i :: 0 <= i < |s.ports| && s.ports[i].nodePort == port
  }

  predicate NodePortsStay(s: Service, stored: Service) {
    && (forall i :: 0 <= i < |s.ports| ==> s.ports[i].nodePort == 0 || HasNodePort(stored, s.ports[i].nodePort))
    && (s.healthCheckNodePort == 0 || s.healthCheckNodePort == stored.healthCheckNodePort)
  }

  /** The submitted address is the stored one, or the one the tenant is shown for it. */
  predicate AddressStays(p: Platform, s: Service, stored: Service) {
    || s.clusterIP == stored.clusterIP
    || (s.clusterIP != "" && s.clusterIP != HEADLESS && TenantClusterIP(p, stored) == Some(s.clusterIP))
  }

  function WithStoredAddress(s: Service, stored: Service): Service {
    if s.clusterIP == stored.clusterIP then s else WithAddress(s, stored.clusterIP)
  }

  function WithStoredMetadata(p: Platform, s: Service, stored: Service): Service {
    s.(labels := Visible(p.hides, s.labels) + Hidden(p.hides, stored.labels),
       annotations := Visible(p.hides, s.annotations) + Hidden(p.hides, stored.annotations))
  }

  const EXTERNAL_NAME := 1
  const EXTERNAL_IP := 2
  const FOREIGN_ADDRESS := 3
  const NODE_PORT_TYPE := 4
  const NODE_PORT := 5

  /** The guards of an update, in the order in which they run. */
  function Guarded(p: Platform, s: Service, stored: Service): Result<Service> {
    if s.kind.ExternalName? then Err(Refused(EXTERNAL_NAME))
    else if !ExternalIPsStay(s, stored) then Err(Refused(EXTERNAL_IP))
    else if !AddressStays(p, s, stored) then Err(Refused(FOREIGN_ADDRESS))
    else if s.kind.NodePort? then Err(Refused(NODE_PORT_TYPE))
    else if !NodePortsStay(s, stored) then Err(Refused(NODE_PORT))
    else Ok(WithStoredMetadata(p, WithStoredAddress(s, stored), stored))
  }

  method ExternalIPsAreNew(s: Service, stored: Service) returns (areNew: bool)
    ensures areNew == !ExternalIPsStay(s, stored)
  {
    var kept: set<string> := {};
    for i := 0 to |stored.externalIPs|
      invariant forall ip :: ip in kept <==> ip in stored.externalIPs[..i]
    {
      kept := kept + {stored.externalIPs[i]};
      assert stored.externalIPs[..i + 1] == stored.externalIPs[..i] + [stored.externalIPs[i]];
    }
    assert stored.externalIPs[..|stored.externalIPs|] == stored.externalIPs;
    for i := 0 to |s.externalIPs|
      invariant forall j :: 0 <= j < i ==> s.externalIPs[j] in stored.externalIPs
    {
      if s.externalIPs[i] !in kept {
        return true;
      }
    }
    return false;
  }

  method NodePortsAreNew(s: Service, stored: Service) returns (areNew: bool)
    ensures areNew == !NodePortsStay(s, stored)
  {
    var kept: set<nat> := {};
    for i := 0 to |stored.ports|
      invariant forall n :: n in kept <==> n != 0 && exists j :: 0 <= j < i && stored.ports[j].nodePort == n
    {
      if stored.ports[i].nodePort != 0 {
        kept := kept + {stored.ports[i].nodePort};
      }
    }
    for i := 0 to |s.ports|
      invariant forall j :: 0 <= j < i ==> s.ports[j].nodePort == 0 || HasNodePort(stored, s.ports[j].nodePort)
    {
      if s.ports[i].nodePort != 0 && s.ports[i].nodePort !in kept {
        return true;
      }
    }
    return s.healthCheckNodePort != 0 && s.healthCheckNodePort != stored.healthCheckNodePort;
  }

  /** A decoded Service, translated in place on its way in or out. */
  class Object {
    var it: Service

    constructor (s: Service)
      ensures it == s
    {
      it := s;
    }

    method ApplyTenantViews(p: Platform)
      modifies this
      ensures it == View(p, old(it))
    {
      var address := TenantClusterIP(p, it);
      if address.Some? {
        it := it.(clusterIP := address.value);
        if |it.clusterIPs| > 0 {
          it := it.(clusterIPs := it.clusterIPs[0 := address.value]);
        }
      }
      var annotations := WithoutHidden(p, it.annotations);
      it := it.(annotations := Scrubbed(p, annotations));
      var labels := WithoutHidden(p, it.labels);
      it := it.(labels := labels);
    }

    method RestoreUpstreamClusterIP(p: Platform, stored: Service) returns (ok: bool)
      modifies this
      ensures ok == AddressStays(p, old(it), stored)
      ensures it == if ok then WithStoredAddress(old(it), stored) else old(it)
    {
      if it.clusterIP == "" || it.clusterIP == HEADLESS {
        return it.clusterIP == stored.clusterIP;
      }
      if it.clusterIP == stored.clusterIP {
        return true;
      }
      var shown := TenantClusterIP(p, stored);
      if shown != Some(it.clusterIP) {
        return false;
      }
      it := it.(clusterIP := stored.clusterIP);
      if |it.clusterIPs| > 0 {
        it := it.(clusterIPs := it.clusterIPs[0 := stored.clusterIP]);
      }
      return true;
    }

    method Restore(p: Platform, stored: Service)
      modifies this
      ensures it == WithStoredMetadata(p, old(it), stored)
    {
      var annotations := RestoreHidden(p, it.annotations, stored.annotations);
      it := it.(annotations := annotations);
      var labels := RestoreHidden(p, it.labels, stored.labels);
      it := it.(labels := labels);
    }

    method Guard(p: Platform, stored: Service) returns (refused: Option<Error>)
      modifies this
      ensures Guarded(p, old(it), stored) == if refused.Some? then Err(refused.value) else Ok(it)
    {
      if it.kind.ExternalName? {
        return Some(Refused(EXTERNAL_NAME));
      }
      var newIPs := ExternalIPsAreNew(it, stored);
      if newIPs {
        return Some(Refused(EXTERNAL_IP));
      }
      var ok := RestoreUpstreamClusterIP(p, stored);
      if !ok {
        return Some(Refused(FOREIGN_ADDRESS));
      }
      Restore(p, stored);
      if it.kind.NodePort? {
        return Some(Refused(NODE_PORT_TYPE));
      }
      var newPorts := NodePortsAreNew(it, stored);
      if newPorts {
        return Some(Refused(NODE_PORT));
      }
      return None;
    }
  }

  // ------------------------------------------------------------------ what every tenant write keeps

  /** What belongs to the platform is as it was, and nothing new is claimed on the nodes. */
  ghost predicate Keeps(p: Platform, now: Service, was: Service) {
    && Hidden(p.hides, now.labels) == Hidden(p.hides, was.labels)
    && Hidden(p.hides, now.annotations) == Hidden(p.hides, was.annotations)
    && now.clusterIP == was.clusterIP
    && ExternalIPsStay(now, was)
    && NodePortsStay(now, was)
  }

  /** A guarded write keeps what is the platform's and takes over everything that is the tenant's. */
  lemma GuardedWriteKeeps(p: Platform, s: Service, stored: Service)
    requires Guarded(p, s, stored).Ok?
    ensures Keeps(p, Guarded(p, s, stored).value, stored)
    ensures Visible(p.hides, Guarded(p, s, stored).value.labels) == Visible(p.hides, s.labels)
    ensures Visible(p.hides, Guarded(p, s, stored).value.annotations) == Visible(p.hides, s.annotations)
    ensures var r := Guarded(p, s, stored).value;
            r.kind == s.kind && r.externalIPs == s.externalIPs && r.ports == s.ports && r.spec == s.spec
  {
    SplitsBack(p.hides, s.labels, stored.labels);
    SplitsBack(p.hides, s.annotations, stored.annotations);
  }

  lemma KeepsIsTransitive(p: Platform, c: Service, b: Service, a: Service)
    requires Keeps(p, c, b) && Keeps(p, b, a)
    ensures Keeps(p, c, a)
  {
  }

  /** A patch of the stored object, a PUT that carries a resourceVersion, or writes of the platform's. */
  datatype Act =
    | TenantPatch(change: Service -> Result<Service>, script: seq<seq<Meddling<Service>>>)
    | TenantPut(submitted: Service, rv: nat, writes: seq<Meddling<Service>>)
    | PlatformWrites(writes: seq<Meddling<Service>>)

  const BLANK := Service(map[], map[], ClusterIP, "", [], [], [], 0, "")

  function RequestOf(p: Platform, act: Act): Request<Service>
    requires !act.PlatformWrites?
  {
    Request(
      if act.TenantPatch? then act.change else _ => Ok(act.submitted),
      if act.TenantPatch? then AsRead else Fixed(act.rv),
      None, BLANK, false,
      (s, stored) => Guarded(p, s, stored),
      s => Err(NotFound))
  }

  function Perform(p: Platform, s: Server<Service>, act: Act): Attempt<Service> {
    match act
    case TenantPatch(_, script) => Run(s, RequestOf(p, act), script)
    case TenantPut(_, _, writes) => Turn(s, RequestOf(p, act), writes)
    case PlatformWrites(writes) => Attempt(Meddled(s, writes), Committed)
  }

  /** The version a tenant's write put itself in the place of. */
  function WhatItReplaced(p: Platform, s: Server<Service>, act: Act): Option<Stored<Service>>
    requires !act.PlatformWrites?
  {
    if act.TenantPatch? then Replaced(s, RequestOf(p, act), act.script) else Meddled(s, act.writes).cell
  }

  function After(p: Platform, s: Server<Service>, acts: seq<Act>): Server<Service>
    decreases |acts|
  {
    if acts == [] then s
    else Perform(p, After(p, s, acts[..|acts| - 1]), acts[|acts| - 1]).server
  }

  lemma {:induction false} RunStaysSound(s: Server<Service>, r: Request<Service>, script: seq<seq<Meddling<Service>>>)
    requires Sound(s)
    ensures Sound(Run(s, r, script).server)
    decreases |script|
  {
    if script != [] {
      MeddlingIsNewer(s, script[0]);
      RunStaysSound(Turn(s, r, script[0]).server, r, script[1..]);
    }
  }

  lemma {:induction false} StaysSound(p: Platform, s: Server<Service>, acts: seq<Act>)
    requires Sound(s)
    ensures Sound(After(p, s, acts))
    decreases |acts|
  {
    if acts != [] {
      StaysSound(p, s, acts[..|acts| - 1]);
      var at := After(p, s, acts[..|acts| - 1]);
      match acts[|acts| - 1]
      case TenantPatch(_, script) => RunStaysSound(at, RequestOf(p, acts[|acts| - 1]), script);
      case TenantPut(_, _, writes) => MeddlingIsNewer(at, writes);
      case PlatformWrites(writes) => MeddlingIsNewer(at, writes);
    }
  }

  /** One tenant write that commits, by patch or by a PUT under a version that had been issued. */
  lemma CommitKeeps(p: Platform, s: Server<Service>, act: Act)
    requires Sound(s) && !act.PlatformWrites? && Perform(p, s, act).outcome.Committed?
    requires act.TenantPut? ==> act.rv <= s.clock
    ensures var was, now := WhatItReplaced(p, s, act), Perform(p, s, act).server.cell;
            was.Some? && now.Some? && Keeps(p, now.value.value, was.value.value)
  {
    var r := RequestOf(p, act);
    if act.TenantPatch? {
      LoopLosesNothing(s, r, act.script);
    } else {
      PutIsGuardedIff(s, r, act.writes);
    }
    var was := WhatItReplaced(p, s, act);
    GuardedWriteKeeps(p, r.change(was.value.value).value, was.value.value);
  }

  /** Over any run mixing tenants' patches and PUTs with platform writes, before, between and in the middle
      of them, every tenant write that commits keeps what belonged to the platform in the very version it
      replaced. */
  lemma EveryTenantCommitKeeps(p: Platform, s: Server<Service>, acts: seq<Act>, k: nat)
    requires Sound(s) && k < |acts| && !acts[k].PlatformWrites?
    requires Perform(p, After(p, s, acts[..k]), acts[k]).outcome.Committed?
    requires acts[k].TenantPut? ==> acts[k].rv <= After(p, s, acts[..k]).clock
    ensures var at := After(p, s, acts[..k]);
            var was, now := WhatItReplaced(p, at, acts[k]), After(p, s, acts[..k + 1]).cell;
            was.Some? && now.Some? && Keeps(p, now.value.value, was.value.value)
  {
    StaysSound(p, s, acts[..k]);
    CommitKeeps(p, After(p, s, acts[..k]), acts[k]);
    assert acts[..k + 1][..k] == acts[..k];
  }

  /** Nobody else writes while this request is served. */
  ghost predicate Quiet(act: Act) {
    match act
    case TenantPatch(_, script) => forall i :: 0 <= i < |script| ==> script[i] == []
    case TenantPut(_, _, writes) => writes == []
    case PlatformWrites(_) => false
  }

  lemma QuietTurnKeeps(p: Platform, s: Server<Service>, act: Act)
    requires Sound(s) && s.cell.Some? && Quiet(act)
    ensures Perform(p, s, act).server.cell.Some?
    ensures Keeps(p, Perform(p, s, act).server.cell.value.value, s.cell.value.value)
  {
    var r, it := RequestOf(p, act), s.cell.value.value;
    assert forall i :: 0 <= i < |it.ports| ==> HasNodePort(it, it.ports[i].nodePort);
    if Computed(r, s.cell).Ok? {
      GuardedWriteKeeps(p, r.change(it).value, it);
    }
  }

  /** However often the tenants alone write, what belongs to the platform is at the end what it was at the
      beginning, and no external address or node port has been added. */
  lemma {:induction false} TenantsAloneChangeNothingOfThePlatforms(p: Platform, s: Server<Service>, acts: seq<Act>)
    requires Sound(s) && s.cell.Some? && forall i :: 0 <= i < |acts| ==> Quiet(acts[i])
    ensures After(p, s, acts).cell.Some?
    ensures Keeps(p, After(p, s, acts).cell.value.value, s.cell.value.value)
    decreases |acts|
  {
    if acts == [] {
      var it := s.cell.value.value;
      assert forall i :: 0 <= i < |it.ports| ==> HasNodePort(it, it.ports[i].nodePort);
    } else {
      var before := After(p, s, acts[..|acts| - 1]);
      TenantsAloneChangeNothingOfThePlatforms(p, s, acts[..|acts| - 1]);
      StaysSound(p, s, acts[..|acts| - 1]);
      QuietTurnKeeps(p, before, acts[|acts| - 1]);
      KeepsIsTransitive(p, After(p, s, acts).cell.value.value, before.cell.value.value, s.cell.value.value);
    }
  }

  // ------------------------------------------------------------------ the lens

  /** Nothing the view shows of the last-applied configuration was rewritten. */
  ghost predicate LastAppliedIsClean(p: Platform, s: Service) {
    Scrubbed(p, Visible(p.hides, s.annotations)) == Visible(p.hides, s.annotations)
  }

  ghost predicate AddressesAgree(s: Service) {
    s.clusterIPs != [] ==> s.clusterIPs[0] == s.clusterIP
  }

  /** A tenant is shown the address the platform has put on the Service, if it is one and the Service is
      not headless or still without an address, and otherwise the upstream address; the list of addresses
      begins with what is shown. */
  lemma TenantIsShownTheReachableAddress(p: Platform, s: Service)
    ensures View(p, s).clusterIP ==
            if s.clusterIP != "" && s.clusterIP != HEADLESS && CLUSTER_IP_ANNOTATION in s.annotations
               && s.annotations[CLUSTER_IP_ANNOTATION] != "" && p.isAddress(s.annotations[CLUSTER_IP_ANNOTATION])
            then s.annotations[CLUSTER_IP_ANNOTATION] else s.clusterIP
    ensures AddressesAgree(s) ==> AddressesAgree(View(p, s))
    ensures |View(p, s).clusterIPs| == |s.clusterIPs|
    ensures forall i :: 1 <= i < |s.clusterIPs| ==> View(p, s).clusterIPs[i] == s.clusterIPs[i]
  {
  }

  /** Nothing hidden is shown, and nothing else is withheld. */
  lemma ViewShowsExactlyTheVisible(p: Platform, s: Service, k: string)
    ensures k in View(p, s).labels <==> k in s.labels && !p.hides(k)
    ensures k in View(p, s).annotations <==> k in s.annotations && !p.hides(k)
    ensures k in View(p, s).labels ==> View(p, s).labels[k] == s.labels[k]
    ensures k in View(p, s).annotations && k != LAST_APPLIED ==> View(p, s).annotations[k] == s.annotations[k]
  {
  }

  /** Writing back an unchanged view is accepted exactly for the types a tenant may write. */
  lemma WriteBackIsAcceptedIff(p: Platform, s: Service)
    requires Sane(p)
    ensures Guarded(p, View(p, s), s).Ok? <==> s.kind.ClusterIP? || s.kind.LoadBalancer?
  {
  }

  /** An accepted write-back restores the stored object exactly when the view did not have to rewrite the
      last-applied configuration, and the stored list of addresses, if one of them was translated, agrees
      with the stored address. */
  lemma WriteBackRestoresIff(p: Platform, s: Service)
    requires Sane(p) && Guarded(p, View(p, s), s).Ok?
    ensures Guarded(p, View(p, s), s).value == s
            <==> LastAppliedIsClean(p, s) && (TenantClusterIP(p, s).Some? ==> AddressesAgree(s))
  {
    var r := Guarded(p, View(p, s), s).value;
    SplitsUp(p.hides, s.labels);
    SplitsUp(p.hides, s.annotations);
    SplitsBack(p.hides, s.labels, s.labels);
    VisibleOfScrubbed(p, s.annotations);
    GuardedWriteKeeps(p, View(p, s), s);
    assert r.clusterIPs == s.clusterIPs <==> (TenantClusterIP(p, s).Some? ==> AddressesAgree(s)) by {
      if TenantClusterIP(p, s).Some? && s.clusterIPs != [] {
        assert r.clusterIPs == s.clusterIPs[0 := s.clusterIP];
      }
    }
  }

  lemma VisibleOfScrubbed(p: Platform, m: Pairs)
    ensures Visible(p.hides, Scrubbed(p, Visible(p.hides, m))) == Scrubbed(p, Visible(p.hides, m))
    ensures Visible(p.hides, Visible(p.hides, m)) == Visible(p.hides, m)
  {
  }

  /** After an accepted write the tenant reads back what it wrote, its hidden keys dropped and the address
      in the spelling it is shown; the address shown is the one it was shown before the write. */
  lemma TenantReadsBackWhatItWrote(p: Platform, s: Service, stored: Service)
    requires Sane(p) && Guarded(p, s, stored).Ok?
    ensures TenantClusterIP(p, Guarded(p, s, stored).value) == TenantClusterIP(p, stored)
    ensures View(p, Guarded(p, s, stored).value) == Stripped(p,
              if TenantClusterIP(p, stored).Some? then WithAddress(s, TenantClusterIP(p, stored).value)
              else s)
  {
    var r := Guarded(p, s, stored).value;
    GuardedWriteKeeps(p, s, stored);
    assert CLUSTER_IP_ANNOTATION in r.annotations <==> CLUSTER_IP_ANNOTATION in Hidden(p.hides, r.annotations);
    assert CLUSTER_IP_ANNOTATION in stored.annotations <==> CLUSTER_IP_ANNOTATION in Hidden(p.hides, stored.annotations);
    assert TenantClusterIP(p, r) == TenantClusterIP(p, stored);
  }

  /** The address has to be translated before the annotations are stripped: the other way round nothing is
      ever translated. */
  lemma StrippingFirstLosesTheAddress(p: Platform, s: Service)
    requires Sane(p)
    ensures Shown(p, Stripped(p, s)) == Stripped(p, s) && Shown(p, Stripped(p, s)).clusterIP == s.clusterIP
    ensures TenantClusterIP(p, s).Some? ==> Shown(p, Stripped(p, s)) != View(p, s)
  {
  }

  /** The write has to be guarded against the stored object and not against the tenant's view of it:
      guarded against the view, a write-back is accepted just as often, and it loses every hidden key and
      any translated address. */
  lemma GuardingAgainstTheViewLosesIt(p: Platform, s: Service)
    requires Sane(p) && Guarded(p, View(p, s), View(p, s)).Ok?
    ensures var r := Guarded(p, View(p, s), View(p, s)).value;
            && Hidden(p.hides, r.labels) == map[] && Hidden(p.hides, r.annotations) == map[]
            && (r.clusterIP == s.clusterIP <==> TenantClusterIP(p, s).None?)
  {
  }
}
