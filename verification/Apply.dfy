/** Forwarding a server-side apply (pkg/proxy/apply.go).

An object is a flat map from leaf paths to values, with the set of leaves every field manager owns. The
gateway resolves a tenant's apply against the tenant's form of the object, puts the hidden leaves back as
they are stored, converts the whole result, lifts the leaves the manager owns and those conversion
touched back out of it, and applies that fragment upstream in the manager's name.
 */
module Apply {
  import opened Metadata
  import opened Names
  import opened Wrappers

  type Path = string
  type Value = string
  type Leaves = map<Path, Value>

  datatype Operation = ByApply | ByUpdate

  datatype Manager = Manager(name: string, operation: Operation, subresource: string)

  function Applier(name: string): Manager {
    Manager(name, ByApply, "")
  }

  type Owners = map<Manager, set<Path>>

  datatype Object = Object(leaves: Leaves, owners: Owners)

  // ------------------------------------------------------------------ apply, as any apiserver does it

  function Owned(owners: Owners, m: Manager): set<Path> {
    if m in owners then owners[m] else {}
  }

  predicate OwnedByOther(owners: Owners, m: Manager, p: Path) {
    exists n :: n in owners && n != m && p in owners[n]
  }

  /** The leaves the fragment would change although another manager owns them. */
  function Conflicts(o: Object, m: Manager, fragment: Leaves): set<Path> {
    set p | p in fragment && OwnedByOther(o.owners, m, p) && (p !in o.leaves || o.leaves[p] != fragment[p])
  }

  /** A leaf the manager owned, no longer applies, and nobody else owns. */
  predicate Dropped(o: Object, m: Manager, fragment: Leaves, p: Path) {
    p in Owned(o.owners, m) && p !in fragment && !OwnedByOther(o.owners, m, p)
  }

  function Merged(o: Object, m: Manager, fragment: Leaves): Leaves {
    map p | p in o.leaves.Keys + fragment.Keys && !Dropped(o, m, fragment, p)
      :: if p in fragment then fragment[p] else o.leaves[p]
  }

  /** The manager owns exactly what it applied; what it took by force nobody else owns any more. */
  function Claimed(o: Object, m: Manager, fragment: Leaves): Owners {
    var others := map n | n in o.owners && n != m :: o.owners[n] - Conflicts(o, m, fragment);
    if fragment == map[] then others else others[m := fragment.Keys]
  }

  /** None for a conflict. */
  function ServerSideApply(o: Object, m: Manager, fragment: Leaves, force: bool): Option<Object> {
    if !force && Conflicts(o, m, fragment) != {} then None
    else Some(Object(Merged(o, m, fragment), Claimed(o, m, fragment)))
  }

  lemma MergedAt(o: Object, m: Manager, fragment: Leaves, p: Path)
    ensures p in fragment ==> p in Merged(o, m, fragment) && Merged(o, m, fragment)[p] == fragment[p]
    ensures p !in fragment ==>
              && (p in Merged(o, m, fragment) <==> p in o.leaves && !Dropped(o, m, fragment, p))
              && (p in Merged(o, m, fragment) ==> Merged(o, m, fragment)[p] == o.leaves[p])
  {
  }

  lemma OthersKeep(o: Object, m: Manager, fragment: Leaves, p: Path)
    ensures OwnedByOther(Claimed(o, m, fragment), m, p)
            <==> OwnedByOther(o.owners, m, p) && p !in Conflicts(o, m, fragment)
  {
    if OwnedByOther(o.owners, m, p) {
      var n :| n in o.owners && n != m && p in o.owners[n];
      assert n in Claimed(o, m, fragment);
    }
  }

  // ------------------------------------------------------------------ conversion, leaf by leaf

  /** How the gateway converts: every leaf by itself, and some injected ones with fixed values, of which
      some are taken out again on the way back and the others are read back as they are. A storage above
      this one may stamp leaves onto the tenant's form, and takes them out before the tenant's apply is
      resolved. Some leaves are the platform's own, and hidden from the tenant; a custom resource is
      converted in place, and nothing hidden is injected into it. */
  datatype Conversion = Conversion(
    forward: (Path, Value) -> Value,
    back: (Path, Value) -> Value,
    injected: Leaves,
    taken: set<Path>,
    stamped: Leaves,
    hides: Path -> bool,
    custom: bool)

  ghost predicate Lawful(c: Conversion) {
    && (forall p: Path, v: Value :: c.back(p, c.forward(p, v)) == v)
    && c.taken <= c.injected.Keys
    && (forall p: Path, v: Value :: p in c.injected && p !in c.taken ==> c.back(p, v) == v)
    && (c.custom ==> forall p :: p in c.injected ==> !c.hides(p))
  }

  function Leaf(c: Conversion, p: Path, v: Value): Value {
    if p in c.injected then c.injected[p] else c.forward(p, v)
  }

  function ToUpstream(c: Conversion, tenant: Leaves): Leaves {
    map p | p in tenant.Keys + c.injected.Keys :: if p in c.injected then c.injected[p] else c.forward(p, tenant[p])
  }

  function ToTenant(c: Conversion, up: Leaves): Leaves {
    map p | p in up && p !in c.taken :: c.back(p, up[p])
  }

  /** What is stored, injected and stamped leaves apart, is what the gateway would write for it, and a leaf
      that is owned is there. */
  ghost predicate Coherent(c: Conversion, up: Object) {
    && (forall p :: p in up.leaves && p !in c.injected && p !in c.stamped ==>
          c.forward(p, c.back(p, up.leaves[p])) == up.leaves[p])
    && (forall n, p :: n in up.owners && p in up.owners[n] ==> p in up.leaves)
  }

  // ------------------------------------------------------------------ forwarding an apply

  datatype Request = Request(c: Conversion, up: Object, creates: bool, manager: string, fragment: Leaves, force: bool)
  {
    function By(): Manager {
      Applier(manager)
    }

    /** The object as the gateway reads it to change it: converted, with the hidden leaves in it. */
    function Original(): Leaves {
      ToTenant(c, up.leaves)
    }

    /** The object the tenant's apply is resolved against. */
    function Tenant(): Object {
      Object(Original() - c.stamped.Keys, up.owners)
    }

    function Resolved(): Leaves {
      Merged(Tenant(), By(), fragment) + c.stamped
    }

    /** The resolved object as it stands before conversion: in an object that is already there, the hidden
        leaves are those that were read. */
    function Form(): Leaves {
      if creates then Resolved() else Visible(c.hides, Resolved()) + Hidden(c.hides, Original())
    }

    /** What is sent is taken before the hidden leaves of a new object are dropped, unless the object was
        converted in place. */
    function Converted(): Leaves {
      var all := ToUpstream(c, Form());
      if creates && c.custom then Visible(c.hides, all) else all
    }

    /** What conversion added or modified. */
    predicate Touched(p: Path) {
      p in Converted() && (p !in Form() || Form()[p] != Converted()[p])
    }

    predicate Lifted(p: Path) {
      p in Converted() && (p in fragment || p in c.stamped || Touched(p))
    }

    function Body(): Leaves {
      map p | p in Converted() && Lifted(p) :: Converted()[p]
    }

    /** The gateway's own resolution finds no conflict, and leaves a record of what the manager applied:
        an apply of nothing leaves none, and is not forwarded as an apply. */
    predicate Forwarded() {
      ServerSideApply(Tenant(), By(), fragment, force).Some? && fragment != map[]
    }

    function Outcome(): Option<Object> {
      ServerSideApply(up, By(), Body(), force)
    }

    ghost predicate Valid() {
      Lawful(c) && Coherent(c, up) && (creates ==> up == Object(map[], map[]))
    }
  }

  datatype Entry = Entry(manager: Manager, fields: Option<set<Path>>)

  /** The first entry that says what the manager owns by having applied it. */
  method ApplyEntry(entries: seq<Entry>, name: string) returns (fields: Option<set<Path>>)
    ensures fields.Some? <==>
              name != "" && exists i :: 0 <= i < |entries| && entries[i].manager == Applier(name) && entries[i].fields.Some?
    ensures fields.Some? ==>
              exists i :: 0 <= i < |entries| && entries[i] == Entry(Applier(name), fields)
                          && forall j :: 0 <= j < i && entries[j].manager == Applier(name) ==> entries[j].fields.None?
  {
    if name == "" {
      return None;
    }
    for i := 0 to |entries|
      invariant forall j :: 0 <= j < i && entries[j].manager == Applier(name) ==> entries[j].fields.None?
    {
      var entry := entries[i];
      if entry.manager.name == name && entry.manager.operation.ByApply? && entry.manager.subresource == ""
         && entry.fields.Some?
      {
        return entry.fields;
      }
    }
    return None;
  }

  /** The managed fields written out as a list. */
  ghost predicate Lists(entries: seq<Entry>, owners: Owners) {
    && (forall i :: 0 <= i < |entries| && entries[i].fields.Some? ==>
          entries[i].manager in owners && entries[i].fields.value == owners[entries[i].manager])
    && (forall m :: m in owners ==> exists i :: 0 <= i < |entries| && entries[i] == Entry(m, Some(owners[m])))
  }

  /** The fragment to send upstream, read off the managed fields the gateway's own resolution left: none
      exactly if the tenant applied nothing, and otherwise what the manager owns, what conversion touched
      and what was stamped. */
  method ForwardApply(r: Request, entries: seq<Entry>) returns (body: Option<Leaves>)
    requires r.manager != "" && ServerSideApply(r.Tenant(), r.By(), r.fragment, r.force).Some?
    requires Lists(entries, ServerSideApply(r.Tenant(), r.By(), r.fragment, r.force).value.owners)
    ensures body == if r.fragment == map[] then None else Some(r.Body())
  {
    var owned := ApplyEntry(entries, r.manager);
    EntryTellsWhatIsOwned(entries, Claimed(r.Tenant(), r.By(), r.fragment), r.By(), owned);
    if owned.None? {
      return None;
    }
    BodyIsWhatIsLifted(r);
    return Some(LiftedLeaves(r, owned.value));
  }

  lemma EntryTellsWhatIsOwned(entries: seq<Entry>, owners: Owners, m: Manager, fields: Option<set<Path>>)
    requires Lists(entries, owners)
    requires fields.Some? <==> exists i :: 0 <= i < |entries| && entries[i].manager == m && entries[i].fields.Some?
    requires fields.Some? ==> exists i :: 0 <= i < |entries| && entries[i] == Entry(m, fields)
    ensures fields == if m in owners then Some(owners[m]) else None
  {
  }

  function LiftedLeaves(r: Request, owned: set<Path>): Leaves {
    var form, converted := r.Form(), r.Converted();
    var delta := set p | p in converted && (p !in form || form[p] != converted[p]);
    map p | p in converted && p in owned + delta + r.c.stamped.Keys :: converted[p]
  }

  lemma BodyIsWhatIsLifted(r: Request)
    ensures LiftedLeaves(r, r.fragment.Keys) == r.Body()
  {
  }

  // ------------------------------------------------------------------ leaf by leaf

  lemma ConvertedAt(r: Request, p: Path)
    requires !(r.creates && r.c.custom && r.c.hides(p))
    ensures p in r.Converted() <==> p in r.Form() || p in r.c.injected
    ensures p in r.c.injected ==> r.Converted()[p] == r.c.injected[p]
    ensures p in r.Form() ==> r.Converted()[p] == Leaf(r.c, p, r.Form()[p])
  {
  }

  lemma FormAt(r: Request, p: Path)
    requires r.creates || !r.c.hides(p)
    ensures p in r.c.stamped ==> p in r.Form() && r.Form()[p] == r.c.stamped[p]
    ensures p !in r.c.stamped && p in r.fragment ==> p in r.Form() && r.Form()[p] == r.fragment[p]
    ensures p !in r.c.stamped && p !in r.fragment ==>
              && (p in r.Form() <==> p in r.up.leaves && p !in r.c.taken && !Dropped(r.up, r.By(), r.fragment, p))
              && (p in r.Form() ==> r.Form()[p] == r.c.back(p, r.up.leaves[p]))
  {
  }

  /** Of an object that is already there, the hidden leaves are those that were read. */
  lemma HiddenFormAt(r: Request, p: Path)
    requires !r.creates && r.c.hides(p)
    ensures p in r.Form() <==> p in r.up.leaves && p !in r.c.taken
    ensures p in r.Form() ==> r.Form()[p] == r.c.back(p, r.up.leaves[p])
  {
  }

  /** A hidden leaf that this manager alone owns, does not apply, and conversion leaves as it is: it is put
      back before the apply is forwarded, and therefore not lifted out of it. */
  predicate Forsaken(r: Request, p: Path) {
    && !r.creates && r.c.hides(p) && p in r.up.leaves && p !in r.c.taken
    && p !in r.fragment && p !in r.c.stamped
    && Leaf(r.c, p, r.c.back(p, r.up.leaves[p])) == r.c.back(p, r.up.leaves[p])
    && p in Owned(r.up.owners, r.By()) && !OwnedByOther(r.up.owners, r.By(), p)
  }

  /** What a new object's apply converts is lifted out whole. */
  lemma CreatedIsLifted(r: Request, p: Path)
    requires r.Valid() && r.creates && p in r.Converted()
    ensures r.Lifted(p)
  {
    FormAt(r, p);
  }

  /** A leaf that is not lifted out is upstream what it was. */
  lemma UnliftedStays(r: Request, p: Path)
    requires r.Valid() && !r.Lifted(p)
    ensures p in r.Converted() ==>
              && p in r.up.leaves && r.Converted()[p] == r.up.leaves[p]
              && (Dropped(r.up, r.By(), r.Body(), p) <==> Forsaken(r, p))
    ensures p !in r.Converted() ==> p !in r.up.leaves || Dropped(r.up, r.By(), r.Body(), p)
    ensures p !in r.Converted() ==> !Forsaken(r, p)
  {
    if r.creates {
      if p in r.Converted() {
        CreatedIsLifted(r, p);
      }
    } else {
      ConvertedAt(r, p);
      if r.c.hides(p) {
        HiddenFormAt(r, p);
      } else {
        FormAt(r, p);
      }
    }
  }

  lemma LiftedIsNotForsaken(r: Request, p: Path)
    requires r.Valid() && r.Lifted(p)
    ensures !Forsaken(r, p)
  {
    if Forsaken(r, p) {
      HiddenFormAt(r, p);
      ConvertedAt(r, p);
      assert false;
    }
  }

  /** Upstream, the object has what conversion gave, leaf by leaf, but for the forsaken ones. */
  lemma OutcomeAt(r: Request, p: Path)
    requires r.Valid() && r.Outcome().Some?
    ensures p in r.Outcome().value.leaves <==> p in r.Converted() && !Forsaken(r, p)
    ensures p in r.Outcome().value.leaves ==> r.Outcome().value.leaves[p] == r.Converted()[p]
  {
    MergedAt(r.up, r.By(), r.Body(), p);
    if r.Lifted(p) {
      LiftedIsNotForsaken(r, p);
    } else {
      UnliftedStays(r, p);
    }
  }

  /** Merging the forwarded fragment into the stored object gives the object that converting the whole of
      what the tenant's apply resolved to would give, exactly when no hidden leaf is forsaken. */
  lemma ForwardingIsConvertingIff(r: Request)
    requires r.Valid() && r.Outcome().Some?
    ensures r.Outcome().value.leaves == r.Converted() <==> forall p :: !Forsaken(r, p)
  {
    if p :| Forsaken(r, p) {
      ForsakenIsConverted(r, p);
      OutcomeAt(r, p);
    } else {
      NothingForsaken(r);
    }
  }

  lemma NothingForsaken(r: Request)
    requires r.Valid() && r.Outcome().Some? && forall p :: !Forsaken(r, p)
    ensures r.Outcome().value.leaves == r.Converted()
  {
    var leaves, whole := r.Outcome().value.leaves, r.Converted();
    forall p
      ensures p in leaves <==> p in whole
      ensures p in leaves ==> leaves[p] == whole[p]
    {
      assert !Forsaken(r, p);
      OutcomeAt(r, p);
    }
  }

  lemma ForsakenIsConverted(r: Request, p: Path)
    requires Forsaken(r, p)
    ensures p in r.Converted() && !r.Lifted(p)
  {
    HiddenFormAt(r, p);
    ConvertedAt(r, p);
  }

  lemma OwnsWhatItApplied(o: Object, m: Manager, fragment: Leaves)
    ensures Owned(Claimed(o, m, fragment), m) == fragment.Keys
  {
  }

  /** The manager ends up owning exactly the leaves it applied or that are stamped, and those whose stored
      value is not the tenant's; and nobody else loses a leaf that was not taken by force. */
  lemma NothingElseIsClaimed(r: Request, p: Path)
    requires r.Valid() && r.Outcome().Some?
    ensures var after := r.Outcome().value;
            p in Owned(after.owners, r.By())
            <==> p in after.leaves && (p in r.fragment || p in r.c.stamped || p !in r.Form() || r.Form()[p] != after.leaves[p])
    ensures !r.force ==> (OwnedByOther(r.Outcome().value.owners, r.By(), p) <==> OwnedByOther(r.up.owners, r.By(), p))
  {
    OutcomeAt(r, p);
    OthersKeep(r.up, r.By(), r.Body(), p);
    OwnsWhatItApplied(r.up, r.By(), r.Body());
    if r.Lifted(p) {
      LiftedIsNotForsaken(r, p);
    }
  }

  // ------------------------------------------------------------------ conflicts

  /** A leaf whose value the gateway fixes, that somebody else owns and has set to something else. */
  predicate Contested(r: Request, p: Path) {
    && (p in r.c.injected || p in r.c.stamped) && OwnedByOther(r.up.owners, r.By(), p)
    && p in r.Converted() && (p !in r.up.leaves || r.up.leaves[p] != r.Converted()[p])
  }

  lemma ConflictsAt(r: Request, p: Path)
    requires r.Valid() && p !in Conflicts(r.Tenant(), r.By(), r.fragment)
    ensures p in Conflicts(r.up, r.By(), r.Body()) <==> Contested(r, p)
  {
    if OwnedByOther(r.up.owners, r.By(), p) {
      ConvertedAt(r, p);
      if r.c.hides(p) {
        HiddenFormAt(r, p);
      } else {
        FormAt(r, p);
      }
    }
  }

  /** An apply the gateway finds no conflict in is refused upstream exactly when somebody else owns a leaf
      whose value the gateway fixes and has set it to something else. */
  lemma RefusedUpstreamIff(r: Request)
    requires r.Valid() && !r.force && r.Forwarded()
    ensures r.Outcome().None? <==> exists p :: Contested(r, p)
  {
    forall p
      ensures p in Conflicts(r.up, r.By(), r.Body()) <==> Contested(r, p)
    {
      ConflictsAt(r, p);
    }
    if exists p :: Contested(r, p) {
      var p :| Contested(r, p);
      assert p in Conflicts(r.up, r.By(), r.Body());
    } else {
      assert forall p :: p !in Conflicts(r.up, r.By(), r.Body());
    }
  }

  // ------------------------------------------------------------------ applying again

  /** The same fragment, applied again by the same manager to what the first apply left. */
  function Again(r: Request): Request
    requires r.Outcome().Some?
  {
    r.(up := r.Outcome().value, creates := false)
  }

  /** A leaf that conversion rewrites and nobody owns. */
  predicate Orphan(r: Request, p: Path) {
    && p in r.up.leaves && !r.c.hides(p) && p !in r.c.injected && p !in r.c.stamped && p !in r.fragment
    && r.c.back(p, r.up.leaves[p]) != r.up.leaves[p]
    && p !in Owned(r.up.owners, r.By()) && !OwnedByOther(r.up.owners, r.By(), p)
  }

  /** A hidden leaf the gateway injects and reads back, which the manager does not apply: unless it is there
      as it should be, and the manager is not the only one that owns it. */
  predicate Wavering(r: Request, p: Path) {
    && r.c.hides(p) && p in r.c.injected && p !in r.c.taken && p !in r.c.stamped && p !in r.fragment
    && (p in r.up.leaves && r.up.leaves[p] == r.c.injected[p] ==>
          p in Owned(r.up.owners, r.By()) && !OwnedByOther(r.up.owners, r.By(), p))
  }

  lemma StaysValid(r: Request)
    requires r.Valid() && r.Outcome().Some?
    ensures Again(r).Valid()
  {
    var after := r.Outcome().value;
    forall p | p in after.leaves && p !in r.c.injected && p !in r.c.stamped
      ensures r.c.forward(p, r.c.back(p, after.leaves[p])) == after.leaves[p]
    {
      OutcomeAt(r, p);
    }
    forall n, p | n in after.owners && p in after.owners[n]
      ensures p in after.leaves
    {
      MergedAt(r.up, r.By(), r.Body(), p);
      if n != r.By() {
        assert p in r.up.owners[n];
      }
    }
  }

  /** What a leaf that is not lifted out the first time leaves behind. */
  lemma OwnersAfter(r: Request, p: Path)
    requires r.Valid() && r.Outcome().Some?
    ensures p in Owned(Again(r).up.owners, r.By()) <==> r.Lifted(p)
    ensures OwnedByOther(Again(r).up.owners, r.By(), p)
            <==> OwnedByOther(r.up.owners, r.By(), p) && p !in Conflicts(r.up, r.By(), r.Body())
  {
    OwnsWhatItApplied(r.up, r.By(), r.Body());
    OthersKeep(r.up, r.By(), r.Body(), p);
  }

  /** A leaf that was lifted because its value is fixed is owned by this manager alone. */
  lemma FixedIsOwnedAlone(r: Request, p: Path)
    requires r.Valid() && r.Outcome().Some? && r.Lifted(p)
    requires p in r.c.injected && p !in r.c.taken && p !in r.c.stamped && p !in r.fragment
    ensures p in Owned(Again(r).up.owners, r.By()) && !OwnedByOther(Again(r).up.owners, r.By(), p)
  {
    OwnersAfter(r, p);
    if !r.creates && OwnedByOther(r.up.owners, r.By(), p) {
      if r.c.hides(p) {
        HiddenFormAt(r, p);
      } else {
        FormAt(r, p);
      }
      ConvertedAt(r, p);
      assert p in Conflicts(r.up, r.By(), r.Body());
    }
  }

  /** Leaf by leaf, the second apply lifts what the first one did: of the hidden leaves, */
  lemma HiddenLiftedAgain(r: Request, p: Path)
    requires r.Valid() && r.Outcome().Some? && r.c.hides(p) && !Wavering(r, p)
    ensures Again(r).Lifted(p) <==> r.Lifted(p)
    ensures r.Lifted(p) ==> Again(r).Converted()[p] == r.Converted()[p]
  {
    OutcomeAt(r, p);
    HiddenFormAt(Again(r), p);
    ConvertedAt(Again(r), p);
    if r.creates {
      FormAt(r, p);
      if p in r.Converted() {
        CreatedIsLifted(r, p);
      }
    } else {
      HiddenFormAt(r, p);
      ConvertedAt(r, p);
    }
    if r.Lifted(p) {
      LiftedIsNotForsaken(r, p);
    }
  }

  /** of the others the gateway injects, */
  lemma InjectedLiftedAgain(r: Request, p: Path)
    requires r.Valid() && r.Outcome().Some? && !r.c.hides(p) && p in r.c.injected
    ensures Again(r).Lifted(p) <==> r.Lifted(p)
    ensures r.Lifted(p) ==> Again(r).Converted()[p] == r.Converted()[p]
  {
    OutcomeAt(r, p);
    OwnersAfter(r, p);
    ConvertedAt(r, p);
    ConvertedAt(Again(r), p);
    FormAt(r, p);
    FormAt(Again(r), p);
    if r.Lifted(p) && p !in r.c.taken && p !in r.c.stamped && p !in r.fragment {
      FixedIsOwnedAlone(r, p);
    }
  }

  /** and of the rest. */
  lemma PlainLiftedAgain(r: Request, p: Path)
    requires r.Valid() && r.Outcome().Some? && !r.c.hides(p) && p !in r.c.injected && !Orphan(r, p)
    ensures Again(r).Lifted(p) <==> r.Lifted(p)
    ensures r.Lifted(p) ==> Again(r).Converted()[p] == r.Converted()[p]
  {
    OutcomeAt(r, p);
    OwnersAfter(r, p);
    ConvertedAt(r, p);
    ConvertedAt(Again(r), p);
    FormAt(r, p);
    FormAt(Again(r), p);
  }

  lemma NoConflictAgain(r: Request, p: Path)
    requires r.Valid() && r.Outcome().Some? && !r.force
    requires p !in Conflicts(r.Tenant(), r.By(), r.fragment)
    ensures p !in Conflicts(Again(r).Tenant(), r.By(), r.fragment)
  {
    OthersKeep(r.up, r.By(), r.Body(), p);
    if p in r.fragment && OwnedByOther(r.up.owners, r.By(), p) {
      ConflictsAt(r, p);
      OutcomeAt(r, p);
      ConvertedAt(r, p);
      if r.c.hides(p) {
        HiddenFormAt(r, p);
      } else {
        FormAt(r, p);
      }
    }
  }

  lemma NotContestedAgain(r: Request, p: Path)
    requires r.Valid() && r.Outcome().Some? && Again(r).Valid()
    ensures !Contested(Again(r), p)
  {
    OutcomeAt(r, p);
    if p in r.Outcome().value.leaves {
      ConvertedAt(Again(r), p);
      if r.c.hides(p) {
        HiddenFormAt(Again(r), p);
      } else {
        FormAt(Again(r), p);
      }
    }
  }

  /** Applying the same fragment again is never refused, neither by the gateway nor upstream. */
  lemma ReapplyNeverConflicts(r: Request)
    requires r.Valid() && r.Outcome().Some? && r.Forwarded()
    ensures Again(r).Forwarded() && Again(r).Outcome().Some?
  {
    StaysValid(r);
    if !r.force {
      forall p
        ensures p !in Conflicts(Again(r).Tenant(), r.By(), r.fragment)
        ensures !Contested(Again(r), p)
      {
        assert p !in Conflicts(r.Tenant(), r.By(), r.fragment);
        NoConflictAgain(r, p);
        NotContestedAgain(r, p);
      }
      assert Conflicts(Again(r).Tenant(), r.By(), r.fragment) == {};
      RefusedUpstreamIff(Again(r));
    }
  }

  lemma LiftedAgain(r: Request, p: Path)
    requires r.Valid() && r.Outcome().Some? && !Orphan(r, p) && !Wavering(r, p)
    ensures Again(r).Lifted(p) <==> r.Lifted(p)
    ensures r.Lifted(p) ==> Again(r).Converted()[p] == r.Converted()[p]
  {
    if r.c.hides(p) {
      HiddenLiftedAgain(r, p);
    } else if p in r.c.injected {
      InjectedLiftedAgain(r, p);
    } else {
      PlainLiftedAgain(r, p);
    }
  }

  lemma SameBody(r: Request, s: Request)
    requires forall p :: (s.Lifted(p) <==> r.Lifted(p)) && (r.Lifted(p) ==> s.Converted()[p] == r.Converted()[p])
    ensures s.Body() == r.Body()
  {
    forall p
      ensures p in s.Body() <==> p in r.Body()
      ensures p in r.Body() ==> s.Body()[p] == r.Body()[p]
    {
      assert s.Lifted(p) <==> r.Lifted(p);
    }
  }

  lemma SameBodyAgain(r: Request)
    requires r.Valid() && r.Outcome().Some?
    requires forall p :: !Orphan(r, p) && !Wavering(r, p)
    ensures Again(r).Body() == r.Body()
  {
    var s := Again(r);
    forall p
      ensures (s.Lifted(p) <==> r.Lifted(p)) && (r.Lifted(p) ==> s.Converted()[p] == r.Converted()[p])
    {
      assert !Orphan(r, p) && !Wavering(r, p);
      LiftedAgain(r, p);
    }
    SameBody(r, s);
  }

  /** Upstream, the same fragment applied twice is the fragment applied once. */
  lemma ApplyIsIdempotent(o: Object, m: Manager, fragment: Leaves, force: bool)
    requires ServerSideApply(o, m, fragment, force).Some?
    ensures var once := ServerSideApply(o, m, fragment, force);
            ServerSideApply(once.value, m, fragment, force) == once
  {
    var o2 := ServerSideApply(o, m, fragment, force).value;
    forall p
      ensures p !in Conflicts(o2, m, fragment)
      ensures p in Merged(o2, m, fragment) <==> p in o2.leaves
      ensures p in o2.leaves ==> Merged(o2, m, fragment)[p] == o2.leaves[p]
    {
      OwnsWhatItApplied(o, m, fragment);
      MergedAt(o, m, fragment, p);
      MergedAt(o2, m, fragment, p);
    }
    assert Merged(o2, m, fragment) == o2.leaves;
    SameOwnersAgain(o, m, fragment, o2);
  }

  lemma SameOwnersAgain(o: Object, m: Manager, fragment: Leaves, o2: Object)
    requires o2.owners == Claimed(o, m, fragment) && Conflicts(o2, m, fragment) == {}
    ensures Claimed(o2, m, fragment) == o2.owners
  {
    var others := map n | n in o2.owners && n != m :: o2.owners[n] - Conflicts(o2, m, fragment);
    assert forall n :: n in others ==> others[n] == o2.owners[n];
    if fragment == map[] {
      assert others == o2.owners;
    } else {
      assert others[m := fragment.Keys] == o2.owners;
    }
  }

  /** Applying the same fragment again changes nothing, neither a value nor an owner, exactly when there
      was no leaf that conversion rewrites and nobody owned (the first apply takes such a leaf over without
      the tenant ever having applied it, and so the second one drops it), and no hidden injected leaf that
      the manager does not apply and has, or is about to get, to itself. */
  lemma ReapplyChangesNothingIff(r: Request)
    requires r.Valid() && r.Outcome().Some? && r.Forwarded()
    ensures Again(r).Outcome() == r.Outcome() <==> forall p :: !Orphan(r, p) && !Wavering(r, p)
  {
    ReapplyNeverConflicts(r);
    if p :| Orphan(r, p) {
      OrphanIsDropped(r, p);
    } else if p :| Wavering(r, p) {
      WaveringComesAndGoes(r, p);
    } else {
      SameBodyAgain(r);
      ApplyIsIdempotent(r.up, r.By(), r.Body(), r.force);
    }
  }

  lemma OrphanIsDropped(r: Request, p: Path)
    requires r.Valid() && r.Outcome().Some? && Orphan(r, p) && Again(r).Outcome().Some?
    ensures p in r.Outcome().value.leaves && p !in Again(r).Outcome().value.leaves
  {
    StaysValid(r);
    FormAt(r, p);
    ConvertedAt(r, p);
    OutcomeAt(r, p);
    OwnersAfter(r, p);
    FormAt(Again(r), p);
    ConvertedAt(Again(r), p);
    OutcomeAt(Again(r), p);
  }

  lemma WaveringIsSent(r: Request, p: Path)
    requires r.Valid() && r.Outcome().Some? && Wavering(r, p)
    ensures p in r.Converted() && r.Converted()[p] == r.c.injected[p]
    ensures r.Lifted(p) <==> !(p in r.up.leaves && r.up.leaves[p] == r.c.injected[p])
    ensures p in r.Outcome().value.leaves <==> r.Lifted(p)
  {
    OutcomeAt(r, p);
    ConvertedAt(r, p);
    if r.creates {
      FormAt(r, p);
    } else {
      HiddenFormAt(r, p);
    }
  }

  /** Such a leaf is there after every second apply: the one that puts it there makes it the manager's own,
      and the next one, which finds it as it should be, leaves it out and so takes it away. */
  lemma WaveringComesAndGoes(r: Request, p: Path)
    requires r.Valid() && r.Outcome().Some? && Wavering(r, p) && Again(r).Outcome().Some?
    ensures p in r.Outcome().value.leaves <==> !(p in r.up.leaves && r.up.leaves[p] == r.c.injected[p])
    ensures p in Again(r).Outcome().value.leaves <==> p !in r.Outcome().value.leaves
    ensures Wavering(Again(r), p)
  {
    StaysValid(r);
    WaveringIsSent(r, p);
    OutcomeAt(r, p);
    if r.Lifted(p) {
      FixedIsOwnedAlone(r, p);
    }
    WaveringIsSent(Again(r), p);
  }

  /** The same fragment, applied over and over. */
  ghost predicate Follows(r: Request, s: Request) {
    r.Outcome().Some? && s == Again(r)
  }

  ghost predicate Repeated(run: seq<Request>) {
    forall i, j :: 0 <= i && j == i + 1 && j < |run| ==> Follows(run[i], run[j])
  }

  ghost predicate Restless(r: Request, p: Path) {
    && r.Valid() && r.Outcome().Some? && r.Forwarded() && Wavering(r, p)
    && (p in r.up.leaves ==> r.up.leaves[p] == r.c.injected[p])
  }

  lemma StaysRestless(r: Request, p: Path)
    requires Restless(r, p)
    ensures Restless(Again(r), p) && (p in Again(r).up.leaves <==> p !in r.up.leaves)
  {
    StaysValid(r);
    ReapplyNeverConflicts(r);
    WaveringComesAndGoes(r, p);
    OutcomeAt(r, p);
    ConvertedAt(r, p);
  }

  lemma FollowsRestless(r: Request, s: Request, p: Path)
    requires Restless(r, p) && Follows(r, s)
    ensures Restless(s, p) && (p in s.up.leaves <==> p !in r.up.leaves)
  {
    StaysRestless(r, p);
  }

  lemma {:induction false} RestlessThroughout(run: seq<Request>, p: Path, n: nat)
    requires Repeated(run) && n < |run| && Restless(run[0], p)
    ensures Restless(run[n], p)
    decreases n
  {
    if n > 0 {
      RestlessThroughout(run, p, n - 1);
      assert Follows(run[n - 1], run[n]);
      FollowsRestless(run[n - 1], run[n], p);
    }
  }

  lemma {:induction false} Alternates(there: seq<bool>, n: nat)
    requires n < |there| && forall i, j :: 0 <= i && j == i + 1 && j < |there| ==> there[j] == !there[i]
    ensures there[n] <==> (n % 2 == 0) == there[0]
    decreases n
  {
    if n > 0 {
      Alternates(there, n - 1);
      assert there[n] == !there[n - 1];
    }
  }

  /** ... and so for ever. */
  lemma WaveringNeverSettles(run: seq<Request>, p: Path, n: nat)
    requires Repeated(run) && n < |run| && Restless(run[0], p)
    ensures p in run[n].up.leaves <==> (n % 2 == 0) == (p in run[0].up.leaves)
  {
    var there := seq(|run|, i requires 0 <= i < |run| => p in run[i].up.leaves);
    forall i, j | 0 <= i && j == i + 1 && j < |there|
      ensures there[j] == !there[i]
    {
      RestlessThroughout(run, p, i);
      assert Follows(run[i], run[j]);
      FollowsRestless(run[i], run[j], p);
    }
    Alternates(there, n);
  }

  // ------------------------------------------------------------------ two leaves that are lost

  const MARK := "111111-"

  const PREFIXING := Conversion(
    (p: Path, v: Value) => MARK + v,
    (p: Path, v: Value) => if |v| >= |MARK| && v[..|MARK|] == MARK then v[|MARK|..] else v,
    map[], {}, map[], p => false, false)

  lemma PrefixingIsLawful()
    ensures Lawful(PREFIXING)
  {
  }

  /** An object with one reference in it that nobody owns, and the apply of another leaf. */
  const LOSING := Request(PREFIXING, Object(map["secretName" := MARK + "db"], map[]), false,
                          "operator", map["replicas" := "3"], false)

  lemma LosingIsForwarded()
    ensures LOSING.Valid() && LOSING.Forwarded() && LOSING.Outcome().Some?
  {
    PrefixingIsLawful();
    assert PREFIXING.back("secretName", PREFIXING.forward("secretName", "db")) == "db";
    assert "replicas" in LOSING.fragment;
  }

  lemma LosingHasAnOrphan()
    ensures Orphan(LOSING, "secretName")
  {
    assert PREFIXING.back("secretName", PREFIXING.forward("secretName", "db")) == "db";
  }

  lemma ReapplyDropsOrphans(r: Request, p: Path)
    requires r.Valid() && r.Forwarded() && r.Outcome().Some? && Orphan(r, p)
    ensures Again(r).Outcome().Some?
    ensures p in r.Outcome().value.leaves && p !in Again(r).Outcome().value.leaves
  {
    ReapplyNeverConflicts(r);
    OrphanIsDropped(r, p);
  }

  /** An orphan can be there: the reference survives the first apply and is gone after the second. */
  lemma ReapplyCanDropALeaf()
    ensures LOSING.Valid() && LOSING.Forwarded() && LOSING.Outcome().Some?
    ensures Again(LOSING).Outcome().Some?
    ensures "secretName" in LOSING.Outcome().value.leaves
    ensures "secretName" !in Again(LOSING).Outcome().value.leaves
  {
    LosingIsForwarded();
    LosingHasAnOrphan();
    ReapplyDropsOrphans(LOSING, "secretName");
  }

  const LABEL := "metadata.labels." + TENANT_LABEL

  /** A Namespace: its label is injected, hidden from the tenant, and part of what is read to be changed. */
  const LABELLING := Conversion((p: Path, v: Value) => v, (p: Path, v: Value) => v,
                                map[LABEL := "111111"], {}, map[], p => p == LABEL, false)

  /** The apply of a Namespace that is not there yet. */
  const CREATING := Request(LABELLING, Object(map[], map[]), true, "kubectl", map["metadata.labels.team" := "web"], false)

  lemma CreatingIsForwarded()
    ensures Restless(CREATING, LABEL)
  {
    assert "metadata.labels.team" in CREATING.fragment;
    assert LABEL[16] != "metadata.labels.team"[16];
  }

  /** A Namespace applied twice by the same manager has its tenant's label after the first apply, and has
      lost it after the second. */
  lemma ReapplyLosesTheLabel()
    ensures CREATING.Valid() && CREATING.Forwarded() && CREATING.Outcome().Some?
    ensures Again(CREATING).Forwarded() && Again(CREATING).Outcome().Some?
    ensures LABEL in CREATING.Outcome().value.leaves && LABEL !in Again(CREATING).Outcome().value.leaves
  {
    CreatingIsForwarded();
    ReapplyNeverConflicts(CREATING);
    WaveringComesAndGoes(CREATING, LABEL);
  }

  /** Applied n times, it has the label exactly if n is odd. */
  lemma RepeatedApplyLosesTheLabel(run: seq<Request>, n: nat)
    requires Repeated(run) && n < |run| && run[0] == CREATING
    ensures LABEL in run[n].up.leaves <==> n % 2 == 1
  {
    CreatingIsForwarded();
    WaveringNeverSettles(run, LABEL, n);
  }
}
