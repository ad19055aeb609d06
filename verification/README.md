# A verified model of the kubezoo gateway

The kubezoo gateway gives every tenant what looks like a Kubernetes cluster of its own, on top of one
shared upstream cluster. It prefixes the tenant's names on the way up and trims them on the way down,
serves lists and watches over all of a tenant's namespaces from one request per namespace, guards every
write against the object it replaces, and keeps derived objects (projected role bindings, quotas, cached
CRD storage) in step with what they are derived from. This project models those parts in Dafny and
proves what a tenant, or the platform, may rely on.

`dafny verify dfyconfig.toml` checks everything. The modules:

| module | what it is about |
|---|---|
| `Wrappers`, `Metadata` | an optional value; labels and annotations, split into visible and hidden ones |
| `Names` | the tenant prefix, the two spellings of a namespace, and its label |
| `TenantStores`, `TenantIsolation` | the shared store simulates one private store per tenant |
| `WatchMux`, `WatchMuxLife`, `WatchMuxData`, `WatchMuxSafety`, `WatchMuxTheorems` | one watch merged from many, as a state machine over its goroutines |
| `Fanout` | one paginated list over many namespaces |
| `RetryLoop`, `ServiceLens` | the optimistic write loop, and Services seen through it |
| `Apply` | forwarding a server-side apply |
| `CrdCache` | the copy-on-write cache of CRD serving information |
| `Rbac`, `RbacBindings`, `CrbProjection`, `CrbSelector` | RBAC rewriting and projected ClusterRoleBindings |
| `Quota`, `QuotaStatus`, `QuotaReconciler`, `QuotaRetry` | the ClusterResourceQuota controller |
| `NetworkPolicy` | confining namespace selectors |
| `Chain`, `PodTemplates` | transformer chains and the one every pod template goes through |

Code that works step by step (the bookmark fold, the fan-out loop, the retry loops, the guards of a write,
the CRD handlers, the projection, the reconciler, the in-place rewriters) is modelled by methods with the
source's loops and branches, each proved equal to a specification function; the theorems are about those
functions. Concurrent code is a state machine whose runs are all interleavings of its steps.

Names that live in the kubezoo contract library are defined as the gateway relies on them: a prefix is the
tenant id and a dash, trimming removes one, an already prefixed namespace is left alone, and tenant ids are
six characters long (pkg/filters/openapiv2.go:94).

Where the source, its comments and what is true of it part ways, the model follows the code and the
theorem says exactly when the promise holds:

- A merged bookmark is safe for the namespaces it covers. Outside a requested replay it covers those whose
  watch was opened at a revision: a watch from none begins with the objects there are, in no order of
  revision, and the bookmark may pass one of them (`BookmarkCoversIff`, `WatchFromZeroHappens`). One that
  joins later may start below it (`LateJoinIsSafeIff`, `LateJoinHappens`).
- A patch that carries its own, stale resourceVersion is retried for ever (`OwnVersionRetriesForeverIff`).
- Writing back an unchanged view of a Service restores it unless the last-applied annotation held hidden
  keys or the address list disagrees with the address (`WriteBackRestoresIff`).
- Applying the same fragment twice drops a leaf that conversion rewrites and nobody owned
  (`ReapplyChangesNothingIff`, `ReapplyCanDropALeaf`). It also drops a hidden leaf that the first apply
  injected, because hidden leaves are put back before the gateway looks for what conversion added: a
  Namespace applied twice by one manager loses its tenant's label, and gets it back with the third apply
  (`ReapplyLosesTheLabel`, `RepeatedApplyLosesTheLabel`), although the comment at
  pkg/proxy/apply.go:199-211 is about keeping that very label.
- A grant on a native API group is lost if the tenant also has a CRD in that group
  (`EveryRuleKeepsMeaningIff`); a User subject without a name is stored and then refused on every read
  (`SubjectComesBackIff`), although the comment at pkg/convert/rolebinding.go:145-156 is about the same
  mistake for service accounts.
- The label selector that is not selectable, `labels.Nothing()`, is replaced by one that selects every
  ClusterRoleBinding (`CommutesIff`). No parsed request carries it; a parsed selector that happens to match
  nothing is kept.
- A quota of another ClusterResourceQuota's that carries the label is adopted (`KeptBelongsIff`,
  `AdoptsAnothersQuota`).
- A namespace selector keeps its meaning only if it does not use the upstream spelling, the tenant label or
  an expression on the name, or selects nothing anyway (`SelectorsKeepMeaningIff`,
  `ExpressionOnTheNameLosesItsMeaning`).
- A network policy is confined to the tenant unless a rule has no peers, which in Kubernetes admits
  everybody and is forwarded as it is, or names an address block (`ForwardedIsConfinedIff`,
  `EmptyRuleAdmitsEverybody`).
- Every update event evicts the entry of a tenant's own CRD, although the handler means to ignore updates
  that change nothing: it compares the tenant's view with the stored form (`UpdateKeepsIff`).
- A pod template without a namespace that carries the platform's annotation changes when it is written back
  (`WritingBackIsStableIff`). The convertors allow for it, but no request brings one: what a namespaced
  endpoint receives has its namespace.
- A workload that brings a service account volume of its own without a namespace file in it runs pods that
  read no namespace at all (`PodsReadTheTenantsNamespaceIff`).

## Model

| member | source | states |
|---|---|---|
| `Names.TrimUndoesAdd` | pkg/convert/default.go:54 | trimming takes back exactly the prefix that was added, for every name |
| `Names.AddUndoesTrim` | pkg/convert/default.go:100-101 | a name that carries the prefix is restored by adding it again |
| `Names.PrefixesAreDisjoint` | pkg/filters/openapiv2.go:94 | no name carries two tenants' prefixes |
| `Names.UpstreamNamespaceResolves` | pkg/proxy/proxy.go:2020-2032 | both spellings of a namespace resolve to one prefixed name, resolving is idempotent, and two spellings resolve alike if and only if they trim alike |
| `TenantStores.ForwardOwners` | pkg/convert/default.go:74-82 | in place, the loop prefixes the API versions of custom owners and the names of cluster-scoped ones, and leaves the rest |
| `TenantStores.OwnersComeBack` | pkg/convert/ownerreference.go:44-98 | reading back forwarded owner references, API versions included, gives the references that were written |
| `TenantIsolation.RequestsReachTheImage` | pkg/proxy/proxy.go:280-297 | a request is sent to the one upstream key of what it names, whichever spelling of the namespace it uses |
| `TenantIsolation.AnswerIsEchoed` | pkg/proxy/proxy.go:2005-2033 | an answer about a stored object names the namespace as the caller spelled it |
| `TenantIsolation.VisibleOfForward` | pkg/convert/default.go:45-124 | what a tenant sees of what it stored is what it wrote, without hidden labels and with the pod security level pinned |
| `TenantIsolation.StampedNamespaceIsOk` | pkg/convert/namespace.go:36-60 | a namespace created through the gateway carries exactly its tenant's label and no doubled prefix |
| `TenantIsolation.RestoredIsAdmitted` | pkg/convert/hiddenmeta.go:193-205 | restoring the stored hidden labels never gets an update refused and changes nothing the tenant sees |
| `TenantIsolation.GetAgrees` | pkg/proxy/proxy.go:441-482 | a get answers what a cluster of the tenant's own would answer |
| `TenantIsolation.CreateAgrees` | pkg/proxy/proxy.go:696-907 | a create answers alike, errors included, and keeps the shared store in agreement with the private one |
| `TenantIsolation.UpdateAgrees` | pkg/proxy/proxy.go:500-672 | the same of an update |
| `TenantIsolation.DeleteAgrees` | pkg/proxy/proxy.go:911-967 | the same of a delete, of a namespace with everything in it included |
| `TenantIsolation.ListAgrees` | pkg/proxy/proxy.go:971-1051 | a list of a cluster-scoped kind, of one namespace or of all of them holds exactly the objects the private cluster would list |
| `TenantIsolation.GatheredIsSelected` | pkg/proxy/fanout.go:138-163 | whatever is gathered from the namespaces that carry the tenant's label is the tenant's own |
| `TenantIsolation.RequestTouchesOnlyOwn` | pkg/proxy/proxy.go:280-297 | a tenant's request changes no key another tenant or the platform owns |
| `TenantIsolation.OthersAreNotDisturbed` | pkg/convert/default.go:45-84 | no other tenant can see that a request was made |
| `TenantIsolation.TenantsCannotTellTheyShare` | pkg/proxy/proxy.go:441-1051 | for any number of tenants and any interleaving of gets, lists, creates, updates and deletes with each other's and with the platform's on keys no tenant owns, each request is answered as on a private store, from the beginning of the run; what the platform writes into tenants' namespaces, and applies, are not among the requests |
| `TenantIsolation.NamespacesStayLabelled` | pkg/convert/namespace.go:36-60 | in every store such requests can reach a namespace is labelled with a tenant if and only if its name carries that tenant's prefix; a repeated apply breaks this, see `Apply.RepeatedApplyLosesTheLabel` |
| `WatchMux.Folder.OnBookmark` | pkg/proxy/watchmux.go:304-358 | one bookmark folds into the guarded state: the watermark is the minimum over the streams, the end of replay is announced once all streams reported theirs, and the merged bookmark is decided on exactly then |
| `WatchMux.Folder.RecordRevision` | pkg/proxy/watchmux.go:285-294 | a stream's recorded revision only grows and nothing else changes |
| `WatchMuxData.RecordedIsSettled` | pkg/proxy/watchmux.go:229-294 | a stream past its initial events has handed over every event it will ever send at or below what it has recorded |
| `WatchMuxData.FoldOk` | pkg/proxy/watchmux.go:304-358 | folding a bookmark keeps the invariant on streams, decisions and what was delivered |
| `WatchMuxData.DeliverOk` | pkg/proxy/watchmux.go:229-280 | delivering an event keeps it |
| `WatchMuxLife.EnterOk` | pkg/proxy/watchmux.go:206-226 | at most one goroutine is ever inside expire, and it is the one on record |
| `WatchMuxSafety.CoverageKept` | pkg/proxy/watchmux.go:362-490 | every step keeps somebody attending to every namespace heard of |
| `WatchMuxSafety.InvKept` | pkg/proxy/watchmux.go:107-507 | every enabled step of every goroutine keeps the invariant |
| `WatchMuxSafety.InvHolds` | pkg/proxy/watchmux.go:107-507 | the invariant holds after every interleaving |
| `WatchMuxTheorems.BookmarkIsSafe` | pkg/proxy/watchmux.go:304-358 | whatever a covered stream will ever send at or below a merged bookmark has been delivered |
| `WatchMuxTheorems.BookmarkCoversIff` | pkg/proxy/watchmux.go:304-358 | a bookmark that announces the end of a replay covers every namespace registered when it was decided; without a replay it covers exactly those opened at a revision, and so all of them if and only if none was opened at revision 0 |
| `WatchMuxTheorems.DecisionsAdvance` | pkg/proxy/watchmux.go:317-357 | advancing watermarks are decided in strictly increasing order, and at most one decision announces the end of replay |
| `WatchMuxTheorems.DeliveriesAreAPrefix` | pkg/proxy/watchmux.go:229-280 | the events received from a namespace are a prefix of its stream: none lost, repeated or reordered |
| `WatchMuxTheorems.OneEndOfReplay` | pkg/proxy/watchmux.go:541-559 | every received bookmark was decided, and at most one carries the end-of-replay mark |
| `WatchMuxTheorems.ClosesLoudly` | pkg/proxy/watchmux.go:107-226 | the result channel closes only after the client stopped or a 410 was delivered, and then nothing can send on it or start |
| `WatchMuxTheorems.EveryWatchIsStopped` | pkg/proxy/watchmux.go:498-507 | once all goroutines have returned every upstream watch that was opened has been stopped |
| `WatchMuxTheorems.CoverageNeverShrinks` | pkg/proxy/watchmux.go:362-490 | until the stream is stopped every namespace heard of is streamed, being joined, or about to end it with a 410 |
| `WatchMuxTheorems.LateJoinIsSafeIff` | pkg/proxy/watchmux.go:147-183 | a namespace joined late is safe with the bookmarks decided so far if and only if there are none or it starts at a revision at or above all of them |
| `WatchMuxTheorems.BookmarkHappens` | pkg/proxy/watchmux.go:229-358 | a run in which a merged bookmark is decided and received, so the safety theorems are not about runs that cannot be |
| `WatchMuxTheorems.LateJoinHappens` | pkg/proxy/watchmux.go:457-490 | a run in which one joins below a bookmark already decided |
| `WatchMuxTheorems.WatchFromZeroHappens` | pkg/proxy/proxy.go:1857-1869 | a run from revision 0 in which a bookmark at 80 is received while an object at 30 is still to come |
| `Fanout.Encode` | pkg/proxy/fanout.go:68-95 | a cursor that is issued decodes to itself |
| `Fanout.Gather` | pkg/proxy/fanout.go:202-271 | the loop over the namespaces computes the walk the theorems are about |
| `Fanout.ListAcrossNamespaces` | pkg/proxy/fanout.go:180-272 | a whole request, its refusals included, is the specified list |
| `Fanout.WalkKeepsTokens` | pkg/proxy/fanout.go:206-271 | a token is issued only by a full page, decodes, points into the pinned namespaces, and no read of a limited request goes out without a limit |
| `Fanout.WalkKeepsContents` | pkg/proxy/fanout.go:206-271 | a page and what its token leaves account for everything from its cursor on, in order, but for what a short page made it pass over |
| `Fanout.IssuedTokenWorks` | pkg/proxy/fanout.go:82-95 | following an issued token is served from the same snapshot or refused as expired, and never refused for another reason |
| `Fanout.FollowingIsExact` | pkg/proxy/fanout.go:138-272 | following the tokens gives exactly the flat list of the first page's snapshot, whatever is written meanwhile, if and only if no upstream read returned fewer than it was asked for together with a continue token; and none does if upstream fills its pages |
| `Fanout.FollowingIsBounded` | pkg/proxy/fanout.go:241-271 | every page but the last holds exactly the limit, so pages are at most one more than full pages fit in the snapshot |
| `Fanout.UnlimitedIsFlat` | pkg/proxy/fanout.go:238-240 | a list without a limit is the flat list in one page |
| `Fanout.ShortPageLoses` | pkg/proxy/fanout.go:242-247 | an upstream page shorter than its limit that is not the last one loses what follows it |
| `RetryLoop.Upstream.Once` | pkg/proxy/proxy.go:2051-2152 | one turn: read, compute, guard, and write over whatever others did meanwhile |
| `RetryLoop.Upstream.GuaranteedUpdate` | pkg/proxy/proxy.go:2048-2153 | the loop is the specified sequence of turns, ending with the first that decides |
| `RetryLoop.TurnDecides` | pkg/proxy/proxy.go:2051-2152 | a turn fails exactly as its computation does, commits what was computed if nobody interferes, and is otherwise retried or finds the object gone |
| `RetryLoop.CommitReplacesWhatItRead` | pkg/proxy/proxy.go:2140-2152 | under the version it read, a turn commits only if nobody wrote in between, and what it stores was computed from and guarded against what it replaced |
| `RetryLoop.RetryMeansInterference` | pkg/proxy/proxy.go:2140-2146 | a turn is retried only because somebody wrote |
| `RetryLoop.RetriesAreBounded` | pkg/proxy/proxy.go:2048-2153 | there are at most as many retries as interfering writes, and a turn nobody interferes with is the last |
| `RetryLoop.LoopLosesNothing` | pkg/proxy/proxy.go:2048-2153 | whatever the loop ends up storing was computed from and guarded against exactly what it replaced |
| `RetryLoop.OwnVersionRetriesForeverIff` | pkg/proxy/proxy.go:2141-2145 | an undisturbed patch with a resourceVersion of its own is decided at once if that is the stored one, and otherwise retried for ever |
| `RetryLoop.PutIsGuardedIff` | pkg/proxy/proxy.go:500-577 | a committed PUT replaces the version it carries, and was guarded against it if and only if that version had been issued when the gateway read |
| `RetryLoop.UnconditionalPutIsGuardedIff` | pkg/proxy/proxy.go:500-577 | a PUT without a resourceVersion commits over anything that still exists, and replaced what it was guarded against if and only if nobody interfered |
| `ServiceLens.WithoutHidden` | pkg/convert/hiddenmeta.go:230-245 | the loop keeps exactly the keys that are not hidden |
| `ServiceLens.RestoreHidden` | pkg/convert/hiddenmeta.go:247-259 | the visible keys are the submitted ones and the hidden keys the stored ones |
| `ServiceLens.ExternalIPsAreNew` | pkg/convert/service.go:111-127 | true if and only if some address is not among the stored ones |
| `ServiceLens.NodePortsAreNew` | pkg/convert/service.go:62-84 | true if and only if some named port, or the health check port, is not a stored one |
| `ServiceLens.Object.ApplyTenantViews` | pkg/proxy/proxy.go:1955-1998 | in place, the object becomes the tenant's view of it |
| `ServiceLens.Object.RestoreUpstreamClusterIP` | pkg/convert/service.go:208-233 | accepted if and only if the address is the stored one or the one shown for it; then the stored one is put back |
| `ServiceLens.Object.Restore` | pkg/convert/hiddenmeta.go:193-205 | in place, hidden labels and annotations become the stored ones |
| `ServiceLens.Object.Guard` | pkg/proxy/proxy.go:2096-2132 | the guards of an update, in order: the first refusal, or the object to be stored |
| `ServiceLens.GuardedWriteKeeps` | pkg/proxy/proxy.go:1319-1441 | an accepted write keeps hidden metadata and the upstream address, adds no external address or node port, and takes over everything else as submitted |
| `ServiceLens.EveryTenantCommitKeeps` | pkg/proxy/proxy.go:2048-2153 | over any run of patches, PUTs and platform writes, every tenant write that commits keeps these of the very version it replaced |
| `ServiceLens.TenantsAloneChangeNothingOfThePlatforms` | pkg/proxy/proxy.go:1319-1441 | however often tenants alone write, what is the platform's is at the end what it was at the beginning |
| `ServiceLens.TenantIsShownTheReachableAddress` | pkg/convert/service.go:178-190 | the address shown is the platform's annotation if that is an address and the Service has one of its own, and the stored one otherwise; the address list follows |
| `ServiceLens.ViewShowsExactlyTheVisible` | pkg/convert/hiddenmeta.go:100-106 | nothing hidden is shown and nothing else is withheld |
| `ServiceLens.WriteBackIsAcceptedIff` | pkg/proxy/proxy.go:1412-1441 | writing back an unchanged view is accepted if and only if the type is one a tenant may write |
| `ServiceLens.WriteBackRestoresIff` | pkg/proxy/proxy.go:1955-1998 | it restores the stored object if and only if the last-applied annotation held nothing hidden and a translated address list agrees with the address |
| `ServiceLens.TenantReadsBackWhatItWrote` | pkg/convert/service.go:178-233 | after an accepted write the tenant reads what it wrote, hidden keys dropped, at the address it was shown before |
| `ServiceLens.StrippingFirstLosesTheAddress` | pkg/proxy/proxy.go:1959-1963 | stripping before translating would translate nothing |
| `ServiceLens.GuardingAgainstTheViewLosesIt` | pkg/proxy/proxy.go:426-439 | guarding against the tenant's view would lose every hidden key and any translated address |
| `Apply.ApplyEntry` | pkg/proxy/apply.go:257-270 | the first entry of the manager by apply on the object itself, and none exactly if there is none |
| `Apply.ForwardApply` | pkg/proxy/apply.go:66-161 | the fragment sent is what the manager owns, what conversion touched after hidden metadata was put back, and what was stamped; nothing is forwarded exactly if nothing was applied |
| `Apply.OutcomeAt` | pkg/proxy/proxy.go:2062-2140 | merging the forwarded fragment into the stored object gives, leaf by leaf, what converting the whole resolved object gives, but for the hidden leaves put back, converted to themselves, and owned by this manager alone without being applied |
| `Apply.ForwardingIsConvertingIff` | pkg/proxy/apply.go:66-161 | the two are the same object if and only if there is no such leaf |
| `Apply.NothingElseIsClaimed` | pkg/proxy/apply.go:222-241 | the manager ends up owning exactly what it applied, what is stamped, and what differs from the tenant's form; others lose nothing that was not forced |
| `Apply.RefusedUpstreamIff` | pkg/proxy/apply.go:149-160 | an apply the gateway accepts is refused upstream if and only if somebody else owns a leaf whose value the gateway fixes and set it to something else |
| `Apply.ReapplyNeverConflicts` | pkg/proxy/apply.go:45-53 | applying the same fragment again is never refused, by the gateway or upstream |
| `Apply.ReapplyChangesNothingIff` | pkg/proxy/apply.go:45-53 | it changes no value and no owner if and only if there was no leaf that conversion rewrites and nobody owned, and no injected hidden leaf that the manager does not apply, unless that was in place and not the manager's alone |
| `Apply.WaveringComesAndGoes` | pkg/proxy/proxy.go:2133 | such a hidden leaf is there after one of any two applies in a row and gone after the other |
| `Apply.WaveringNeverSettles` | pkg/proxy/proxy.go:2133 | it comes and goes with every apply of a run of any length |
| `Apply.ReapplyCanDropALeaf` | pkg/proxy/apply.go:222-241 | a stored reference without an owner survives the first apply and is gone after the second |
| `Apply.ReapplyLosesTheLabel` | pkg/convert/namespace.go:36-60 | a Namespace created by an apply carries its tenant's label, and the same apply again takes it away |
| `Apply.RepeatedApplyLosesTheLabel` | pkg/convert/namespace.go:36-60 | applied n times by one manager, it carries the label if and only if n is odd |
| `CrdCache.TenantCrdIsShown` | cmd/kubezoo/app/customresource_handler.go:1176-1224 | whoever finds a CRD sees the same view of it under the name it asked for, and only one tenant finds a CRD that is not shared |
| `CrdCache.CrdHandler.RemoveStorage` | cmd/kubezoo/app/customresource_handler.go:544-558 | the entry goes in a fresh copy, and the map readers may hold is unchanged |
| `CrdCache.CrdHandler.CreateCustomResourceDefinition` | cmd/kubezoo/app/customresource_handler.go:507-513 | the created uid is evicted |
| `CrdCache.CrdHandler.UpdateCustomResourceDefinition` | cmd/kubezoo/app/customresource_handler.go:516-539 | a replaced uid is evicted, and so is the new one unless its entry remembers exactly the new CRD |
| `CrdCache.CrdHandler.RemoveDeadStorage` | cmd/kubezoo/app/customresource_handler.go:561-587 | exactly the entries of listed CRDs stay, in a fresh map |
| `CrdCache.CrdHandler.GetOrCreateServingInfoFor` | cmd/kubezoo/app/customresource_handler.go:641-1105 | an entry under the uid asked for is served without the lock; otherwise what the lister has by then is served, an entry of it that is there first, and else added in a fresh copy |
| `CrdCache.UpdateKeepsIff` | cmd/kubezoo/app/customresource_handler.go:516-539 | an update event leaves an entry in place if and only if the CRD is shared and unchanged: the entry of a tenant's own CRD never survives one |
| `CrdCache.HandlingRemoves` | cmd/kubezoo/app/customresource_handler.go:507-587 | handling the event that dooms an entry removes it, unless it is current after all |
| `CrdCache.InvKept` | cmd/kubezoo/app/customresource_handler.go:507-661 | every lister change, event, name resolution and lookup step keeps every entry, and the one being built, current or doomed |
| `CrdCache.EveryEntryIsCurrentOrDoomed` | cmd/kubezoo/app/customresource_handler.go:648-651 | in every reachable state an entry is the view of the CRD as it is, or an event that removes it is pending |
| `CrdCache.QuietCacheAgrees` | cmd/kubezoo/app/customresource_handler.go:641-661 | once the events are handled every entry is the view of a CRD that is there |
| `CrdCache.LookupServesTheTenantsOwn` | cmd/kubezoo/app/customresource_handler.go:648-661 | a lookup under the lock serves the CRD under the name asked for, no other tenant can reach it, and it is current unless an event is pending |
| `CrdCache.ProbeServesTheTenantsOwn` | cmd/kubezoo/app/customresource_handler.go:641-645 | the same of a probe without the lock, whatever happened since the request resolved its name |
| `Rbac.PolicyRule.ToUpstream` | pkg/convert/role.go:97-111 | in place, groups with a CRD are prefixed and prefixed copies of the names appended |
| `Rbac.PolicyRule.ToTenant` | pkg/convert/role.go:115-129 | in place, groups are trimmed and prefixed names dropped |
| `Rbac.NamesKeepMeaning` | pkg/convert/role.go:104-109 | for all names: the forwarded list matches the translated name if and only if the list matches the name, or one of them is spelled with the tenant's own prefix |
| `Rbac.CustomGroupsKeepMeaning` | pkg/convert/role.go:98-102 | a custom group is matched as the tenant wrote it, or in its upstream spelling |
| `Rbac.NativeGroupsKeepMeaning` | pkg/convert/role.go:98-102 | a native group is matched as the tenant wrote it if and only if the tenant has no CRD in it |
| `Rbac.RulesKeepMeaning` | pkg/convert/role.go:97-111 | the translated request matches the forwarded rule if and only if the request matches the rule |
| `Rbac.EveryRuleKeepsMeaningIff` | pkg/convert/role.go:98-102 | that holds for every rule if and only if the request is not a native one in a group the tenant has a CRD in |
| `Rbac.RulesComeBackIff` | pkg/convert/role.go:115-129 | a forwarded rule reads back as written if and only if it uses no name or native group in the tenant's own spelling |
| `RbacBindings.SubjectsToUpstream` | pkg/convert/rolebinding.go:80-134 | every subject is rewritten in place |
| `RbacBindings.SubjectsToTenant` | pkg/convert/rolebinding.go:80-180 | succeeds if and only if every subject is the tenant's, and then all are rewritten |
| `RbacBindings.SubjectComesBackIff` | pkg/convert/rolebinding.go:93-180 | a forwarded subject reads back as written, and is refused if and only if it is a user without a name |
| `RbacBindings.SubjectKeepsMeaning` | pkg/convert/rolebinding.go:93-134 | a forwarded subject means exactly whom the written one means, save that a service account named as a user is nobody |
| `RbacBindings.ForwardedMeansOnlyInsiders` | pkg/convert/rolebinding.go:104-131 | whoever a forwarded subject means is meant by a name or group of the tenant's |
| `RbacBindings.RoleRefComesBack` | pkg/convert/rolebinding.go:43-76 | a forwarded role reference reads back as written |
| `RbacBindings.GrantsAreKept` | pkg/convert/rolebinding.go:43-56 | binding and role together decide about the translated request what the tenant's own cluster would decide |
| `CrbProjection.AsRoleBinding` | pkg/proxy/crbprojection.go:553-601 | the record of a ClusterRoleBinding, refused exactly for a service account without a namespace or a binding without any name |
| `CrbProjection.RecordPresentsWhatWasWritten` | pkg/proxy/crbprojection.go:553-624 | a record presents what was written, up to what a ClusterRoleBinding cannot carry |
| `CrbProjection.PresentedIsWrittenBack` | pkg/proxy/crbprojection.go:553-624 | writing back what a record presents gives the same record |
| `CrbProjection.Projection.ProjectRecord` | pkg/proxy/crbprojection.go:405-451 | the loop creates or updates one copy per other namespace |
| `CrbProjection.Projection.UnprojectRecord` | pkg/proxy/crbprojection.go:454-472 | the loop deletes exactly the copies in the tenant's namespaces |
| `CrbProjection.Projection.CreateBinding` | pkg/proxy/crbprojection.go:274-299 | the record is created under the resolved name, then projected |
| `CrbProjection.Projection.UpdateBinding` | pkg/proxy/crbprojection.go:349-362 | the record is updated, with the hidden labels it has, then projected |
| `CrbProjection.Projection.DeleteBinding` | pkg/proxy/crbprojection.go:367-385 | the record is deleted, then the copies |
| `CrbProjection.CopiesFollowTheRecords` | pkg/proxy/crbprojection.go:274-472 | after any sequence of operations every namespace holds exactly one copy of each live binding with its roleRef and subjects, none of a deleted one, and nothing else changed |
| `CrbProjection.AnswersAreTheTenantsOwn` | pkg/proxy/crbprojection.go:274-385 | every operation is answered as on a cluster of the tenant's own |
| `CrbProjection.CopiesGrantWhatTheBindingGrants` | pkg/proxy/crbprojection.go:405-451 | in each namespace the copy decides what the live ClusterRoleBinding says |
| `CrbSelector.WithProjectedSelector` | pkg/proxy/crbprojection.go:502-537 | the rewritten options: the projection label added, names rewritten, a namespace refused |
| `CrbSelector.SelectionCommutes` | pkg/proxy/crbprojection.go:502-537 | a RoleBinding is selected if and only if it is a record and what it presents matches the tenant's selector, `!=` on the name included |
| `CrbSelector.CommutesIff` | pkg/proxy/crbprojection.go:507-513 | this holds for all records if and only if the label selector is selectable or no name matches the field selector |
| `CrbSelector.DeleteCollection` | pkg/proxy/crbprojection.go:387-402 | the loop deletes the listed bindings in order and stops at the first error |
| `CrbSelector.DeleteCollectionDeletesTheSelected` | pkg/proxy/crbprojection.go:387-402 | exactly the bindings the tenant's selector matches are deleted, with all their copies |
| `Quota.EnsureAt` | pkg/clusterresourcequota/controllers/clusterresourcequota_controller.go:173-292 | what one namespace's pass makes of every quota: kept and repaired, relabelled, deleted or untouched |
| `Quota.ExactlyOneInEveryMatchedNamespace` | pkg/clusterresourcequota/controllers/clusterresourcequota_controller.go:97-138 | from any mix of quotas, a matched namespace ends up with exactly one labelled quota, owned by a ClusterResourceQuota, with the right spec and both labels |
| `Quota.NoneElsewhere` | pkg/clusterresourcequota/controllers/clusterresourcequota_controller.go:125-131 | no other namespace has a labelled quota |
| `Quota.OthersAreLeftAlone` | pkg/clusterresourcequota/controllers/clusterresourcequota_controller.go:176-211 | unlabelled quotas are untouched, and foreign or unowned ones in a matched namespace only lose the label |
| `Quota.KeptBelongsIff` | pkg/clusterresourcequota/controllers/clusterresourcequota_controller.go:179-220 | the kept quota belongs to this ClusterResourceQuota if and only if the first one found that belongs to any does |
| `Quota.AdoptsAnothersQuota` | pkg/clusterresourcequota/controllers/clusterresourcequota_controller.go:180 | a quota of another ClusterResourceQuota's that carries the label is kept as this one's |
| `Quota.SecondReconcileWritesNothing` | pkg/clusterresourcequota/controllers/clusterresourcequota_controller.go:97-138 | a second reconcile makes no request and changes nothing |
| `QuotaStatus.TotalIsSum` | pkg/clusterresourcequota/controllers/clusterresourcequota_controller.go:146-149 | the total names every resource any quota names, with the sum of its amounts |
| `QuotaStatus.TotalIgnoresOrder` | pkg/clusterresourcequota/controllers/clusterresourcequota_controller.go:146-149 | the total does not depend on the order of the quotas |
| `QuotaStatus.SyncStatus` | pkg/clusterresourcequota/controllers/clusterresourcequota_controller.go:140-171 | the status becomes the hard limits and the total, and is written if and only if it was not |
| `QuotaStatus.ReportedIsTheSumOfTheKept` | pkg/clusterresourcequota/controllers/clusterresourcequota_controller.go:97-171 | the usage reported is the sum over the kept quotas, a created one counting nothing |
| `QuotaStatus.SecondSyncWritesNothing` | pkg/clusterresourcequota/controllers/clusterresourcequota_controller.go:140-171 | a second reconcile does not write the status |
| `QuotaReconciler.ByNamespace` | pkg/clusterresourcequota/controllers/clusterresourcequota_controller.go:294-316 | the listed quotas grouped by namespace, in order |
| `QuotaReconciler.GroupedLists` | pkg/clusterresourcequota/controllers/clusterresourcequota_controller.go:294-316 | grouping a list of the labelled quotas misses none and repeats none |
| `QuotaReconciler.Cluster.EnsureResourceQuotaInNamespace` | pkg/clusterresourcequota/controllers/clusterresourcequota_controller.go:173-292 | the loop and what follows it have the specified effect, request by request |
| `QuotaReconciler.Cluster.WithdrawSurplus` | pkg/clusterresourcequota/controllers/clusterresourcequota_controller.go:125-131 | exactly the listed quotas of unmatched namespaces are deleted, and none is requested if there are none |
| `QuotaReconciler.Cluster.Reconcile` | pkg/clusterresourcequota/controllers/clusterresourcequota_controller.go:97-138 | a whole reconcile leaves the specified store and makes no request beyond the specified ones |
| `QuotaRetry.UpdateOnConflict` | pkg/clusterresourcequota/controllers/util.go:63-106 | at most five tries, refreshing after the first, without a write if nothing changes |
| `QuotaRetry.WrittenFromWhatItReplaced` | pkg/clusterresourcequota/controllers/util.go:63-106 | however stale the object handed in, a write was computed from exactly what it replaced, and any other end wrote nothing |
| `QuotaRetry.ConflictMeansBeatenEveryTime` | pkg/clusterresourcequota/controllers/util.go:63-106 | giving up on a conflict means every single try was beaten by another write |
| `NetworkPolicy.VisitPeers` | pkg/convert/networkpolicy.go:103-114 | every peer of every rule is visited once, in place |
| `NetworkPolicy.Forward` | pkg/convert/networkpolicy.go:69-86 | every ingress and egress peer is confined, and those without a selector are untouched |
| `NetworkPolicy.Backward` | pkg/convert/networkpolicy.go:89-101 | every peer is released |
| `NetworkPolicy.ConfinedSelectsOnlyTheTenants` | pkg/convert/networkpolicy.go:116-124 | whatever a tenant writes, only its own namespaces are selected |
| `NetworkPolicy.ConfinedSelectsExactly` | pkg/convert/networkpolicy.go:116-124 | for all match labels: a confined selector selects exactly the tenant's namespaces that the selector, read past prefix and tenant label, selects |
| `NetworkPolicy.SelectorsKeepMeaning` | pkg/convert/networkpolicy.go:116-124 | a plain selector selects exactly the images of the namespaces it selected |
| `NetworkPolicy.SelectorsKeepMeaningIff` | pkg/convert/networkpolicy.go:116-124 | whatever its expressions on other labels, it does so on every cluster if and only if it is plain or selects nothing upstream |
| `NetworkPolicy.SelectsNothingIff` | pkg/convert/networkpolicy.go:116-124 | without expressions a confined selector selects nothing if and only if it names a namespace no tenant can have |
| `NetworkPolicy.PeersKeepMeaning` | pkg/convert/networkpolicy.go:74-84 | for every source: a forwarded peer admits it if and only if the tenant's peer admits it as the tenant sees it; without a selector that is the policy's own namespace, and an address block admits by address |
| `NetworkPolicy.PoliciesKeepMeaning` | pkg/convert/networkpolicy.go:69-114 | for every source a forwarded policy admits in each direction exactly what the tenant's policy says of it, a rule without peers admitting everybody |
| `NetworkPolicy.OutsidersAreAdmittedIff` | pkg/convert/networkpolicy.go:103-124 | whatever selectors a tenant writes, a source outside the tenant is admitted if and only if some rule has no peers or a block with its address |
| `NetworkPolicy.ForwardedIsConfinedIff` | pkg/convert/networkpolicy.go:103-114 | one direction of a forwarded policy is confined to the tenant if and only if no rule in it is without peers and none names a block with an address in it |
| `NetworkPolicy.EmptyRuleAdmitsEverybody` | pkg/convert/networkpolicy.go:103-114 | the rule without peers is forwarded as it is and admits every source |
| `NetworkPolicy.ExpressionOnTheNameLosesItsMeaning` | pkg/convert/networkpolicy.go:116-124 | an expression on the name no longer finds the tenant's namespace |
| `NetworkPolicy.SelectorComesBackIff` | pkg/convert/networkpolicy.go:126-140 | a selector reads back as written if and only if it is plain and not an empty map spelled out |
| `Chain.RunForward` | pkg/convert/cross-object.go:101-108 | the members run in order, up to the first error |
| `Chain.RunBackward` | pkg/convert/cross-object.go:110-117 | the members run in reverse order, up to the first error |
| `Chain.ChainUndoes` | pkg/convert/cross-object.go:89-117 | a chain of any length is undone by running it backward if each member is |
| `Chain.SameOrderDoesNotUndo` | pkg/convert/cross-object.go:91-94 | in the same order both ways it would not be |
| `PodTemplates.RetargetNamespaceSource` | pkg/convert/saprojection.go:241-259 | the nested loops point exactly the namespace files of a projected volume at the annotation |
| `PodTemplates.Project` | pkg/convert/saprojection.go:173-207 | the annotation is stamped, and the first service account volume retargeted or one appended |
| `PodTemplates.ChainIsToUpstream` | pkg/convert/init.go:195-196 | the pod chain, forward and backward, is the composition the theorems are about |
| `PodTemplates.ProjectingTwice` | pkg/convert/saprojection.go:173-259 | for arbitrary volume lists, projecting again changes nothing |
| `PodTemplates.WritingBackIsStableIff` | pkg/convert/saprojection.go:99-162 | writing back what was read stores what is stored if and only if the object has a namespace, as every one a request brings has, or came without the platform's annotation |
| `PodTemplates.NeverDrifts` | pkg/convert/saprojection.go:99-223 | under that condition any number of reads and writes leaves the stored object as it is |
| `PodTemplates.FirstAccountVolumeReadsIff` | pkg/convert/saprojection.go:225-259 | the first service account volume reads the annotation if and only if the tenant brought none or one with a namespace file; no other volume is touched, and at most one is added, at the end |
| `PodTemplates.PodsReadTheTenantsNamespaceIff` | pkg/convert/saprojection.go:99-136 | the stamped annotation is the tenant's name of the namespace; unless no token was asked for, the volume the pods mount reads it if and only if the tenant brought no such volume or one with a namespace file, and with no token asked for no volume is touched |
| `PodTemplates.PodsResolveTheTenantsNames` | pkg/convert/dnsconfig.go:99-196 | with a resolver the pods ask that one alone and short names resolve in the tenant's namespace first; without one nothing is changed |
| `PodTemplates.PlacementIsThePlatforms` | pkg/convert/placement.go:75-170 | nothing a tenant writes about placement survives, and a live pod is only stamped |

## Left out

- Server assembly, flags, authentication, HTTP plumbing, streaming proxies, discovery and OpenAPI filtering: wiring and text filters around the parts modelled here.
- Refusals settled by one branch (probe hosts, inline CSI volumes, device classes, snapshots, endpoint addresses, reserved names) and the remaining single-field convertors: they would only add easy members.
- JSON, base64, regular expressions and structured merge internals: an inverse pair, an arbitrary predicate, flat maps from leaf path to value.
- Timing: backoff, watch timeouts, the delay before storage is torn down.
- uids and resourceVersions in `TenantIsolation`, where requests interleave whole; what happens in the middle of a write is in `RetryLoop` and `ServiceLens`.
- generateName in `TenantStores` and the choice of its suffix, which is a parameter in `CrbProjection`.
- Hidden metadata on create: the object that is sent is built before the hidden keys are dropped (pkg/proxy/proxy.go:757 and pkg/proxy/proxy.go:801), so the theorems about it are for updates and patches; hidden keys of pod templates are stripped on read and not restored.
- The order in which merged bookmarks are received: they are sent outside the lock, so only the order in which they are decided is proved.
- Deleting a namespace is one step in `TenantStores`; the finalizers that take time over it are not modelled.
- Upstream failures in the middle of a projection or of a reconcile, which the controllers repair on a later pass.
- The contract library's spelling of the created-by label and of the node pool's placement values: any key and any values will do.
- The cap on ClusterRoleBindings, on namespaces and on CRDs per tenant, and which namespaces a ClusterResourceQuota matches: parameters or refusals of one branch.
- Wildcards on subresources and non-resource URLs in RBAC rules, and the groups every identity is in (system:authenticated), which the gateway makes inert on purpose.
- Preconditions on a uid.
- Requests that are not for single objects or lists (subresources, connect verbs).
- ForwardOwners: does not model a kind that cannot be looked up, for which the source gives up on the whole object.
- VisibleOfForward: leaves out generateName, the copy of the object in the last-applied annotation (see `ServiceLens`) and what convertors of single kinds rewrite (see `Apply` for conversions in general).
- CreateAgrees: leaves out the refusals by caps, reserved names, authorization and kind-specific guards, each one branch before anything is stored.
- UpdateAgrees: is about whole-object updates of whatever version; versions and guards are in `RetryLoop` and `ServiceLens`.
- TenantsCannotTellTheyShare: patches and applies are not among the requests, and neither are the platform's writes into tenants' namespaces (copies of bindings, quotas), which tenants are meant to see; `RetryLoop`, `Apply`, `CrbProjection` and `Quota` are about those.
- NamespacesStayLabelled: not for runs with server-side applies, for which it is false (`Apply.RepeatedApplyLosesTheLabel`).
- GetOrCreateServingInfoFor: what is built for a CRD, some 400 lines of it, is the view of the CRD it is built from.
