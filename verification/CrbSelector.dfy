/** Listing ClusterRoleBindings, and deleting a selection of them, through a selector rewritten into the
    terms of the records (pkg/proxy/crbprojection.go).
 */
module CrbSelector {
  import opened Names
  import opened CrbProjection
  import RbacBindings
  import opened Wrappers

  /** A requirement on one label, given by what it makes of the label's value, if the label is there. */
  datatype Requirement = Requirement(key: string, meets: Option<string> -> bool)

  /** A label selector: `labels.Nothing()`, which is not selectable, or requirements, all to be met. */
  datatype LabelSelector = Nothing | Requirements(requirements: seq<Requirement>)

  datatype FieldTerm = FieldTerm(field: string, equal: bool, value: string)

  datatype Options = Options(labels: LabelSelector, fields: seq<FieldTerm>)

  const NAME_FIELD := "metadata.name"
  const NAMESPACE_FIELD := "metadata.namespace"

  function Label(labels: Labels, key: string): Option<string> {
    if key in labels then Some(labels[key]) else None
  }

  predicate LabelsMatch(selector: LabelSelector, labels: Labels) {
    selector.Requirements?
    && forall i :: 0 <= i < |selector.requirements| ==>
         selector.requirements[i].meets(Label(labels, selector.requirements[i].key))
  }

  predicate TermMatches(term: FieldTerm, name: string, namespace: string) {
    var value := if term.field == NAME_FIELD then name else if term.field == NAMESPACE_FIELD then namespace else "";
    (value == term.value) == term.equal
  }

  predicate FieldsMatch(terms: seq<FieldTerm>, name: string, namespace: string) {
    forall i :: 0 <= i < |terms| ==> TermMatches(terms[i], name, namespace)
  }

  predicate Selects(options: Options, name: string, namespace: string, labels: Labels) {
    LabelsMatch(options.labels, labels) && FieldsMatch(options.fields, name, namespace)
  }

  // ------------------------------------------------------------------ the rewriting

  const IS_PROJECTION := Requirement(PROJECTION_LABEL, (v: Option<string>) => v == Some("true"))

  function Rewritten(term: FieldTerm): FieldTerm {
    if term.field == NAME_FIELD && term.value != "" then term.(value := ProjectedName(term.value)) else term
  }

  method WithProjectedSelector(options: Options) returns (scoped: Result<Options>)
    ensures scoped == Scoped(options)
  {
    var labels := [IS_PROJECTION];
    if options.labels.Requirements? {
      labels := labels + options.labels.requirements;
    }
    var terms: seq<FieldTerm> := [];
    for i := 0 to |options.fields|
      invariant forall j :: 0 <= j < i ==> options.fields[j].field != NAMESPACE_FIELD
      invariant |terms| == i && forall j :: 0 <= j < i ==> terms[j] == Rewritten(options.fields[j])
    {
      var term := options.fields[i];
      if term.field == NAMESPACE_FIELD {
        return Err(BadRequest);
      }
      if term.field == NAME_FIELD && term.value != "" {
        term := term.(value := ProjectedName(term.value));
      }
      terms := terms + [term];
    }
    assert Scoped(options).value.fields == terms && Scoped(options).value.labels.requirements == labels;
    return Ok(Options(Requirements(labels), terms));
  }

  predicate NamesANamespace(terms: seq<FieldTerm>) {
    exists i :: 0 <= i < |terms| && terms[i].field == NAMESPACE_FIELD
  }

  function Scoped(options: Options): Result<Options> {
    if NamesANamespace(options.fields) then Err(BadRequest)
    else Ok(Options(
      Requirements([IS_PROJECTION] + if options.labels.Requirements? then options.labels.requirements else []),
      seq(|options.fields|, i requires 0 <= i < |options.fields| => Rewritten(options.fields[i]))))
  }

  // ------------------------------------------------------------------ selecting commutes with presenting

  predicate IsProjection(labels: Labels) {
    Label(labels, PROJECTION_LABEL) == Some("true")
  }

  /** Tenants cannot name the projection label: a requirement on it makes no difference between a record
      and what the record presents. */
  ghost predicate Indifferent(selector: LabelSelector) {
    selector.Requirements? ==>
      forall i :: 0 <= i < |selector.requirements| && selector.requirements[i].key == PROJECTION_LABEL ==>
        selector.requirements[i].meets(Some("true")) == selector.requirements[i].meets(None)
  }

  lemma LabelsCommute(selector: LabelSelector, labels: Labels)
    requires selector.Requirements? && Indifferent(selector) && IsProjection(labels)
    ensures LabelsMatch(Requirements([IS_PROJECTION] + selector.requirements), labels)
            <==> LabelsMatch(selector, labels - {PROJECTION_LABEL})
  {
    var all, own := [IS_PROJECTION] + selector.requirements, labels - {PROJECTION_LABEL};
    forall i | 0 <= i < |selector.requirements|
      ensures all[i + 1].meets(Label(labels, all[i + 1].key))
              <==> selector.requirements[i].meets(Label(own, selector.requirements[i].key))
    {
      assert all[i + 1] == selector.requirements[i];
    }
    assert all[0].meets(Label(labels, all[0].key));
  }

  lemma TermCommutes(term: FieldTerm, name: string)
    requires term.field != NAMESPACE_FIELD && IsProjectedName(name) && name != PROJECTION
    ensures TermMatches(Rewritten(term), name, CANONICAL) <==> TermMatches(term, TrimProjectedName(name), "")
  {
  }

  lemma FieldsCommute(options: Options, name: string)
    requires Scoped(options).Ok? && IsProjectedName(name) && name != PROJECTION
    ensures FieldsMatch(Scoped(options).value.fields, name, CANONICAL)
            <==> FieldsMatch(options.fields, TrimProjectedName(name), "")
  {
    var fields := Scoped(options).value.fields;
    forall i | 0 <= i < |options.fields|
      ensures TermMatches(fields[i], name, CANONICAL) <==> TermMatches(options.fields[i], TrimProjectedName(name), "")
    {
      TermCommutes(options.fields[i], name);
    }
  }

  /** A RoleBinding is selected by the rewritten selector exactly when it is a record and the
      ClusterRoleBinding it presents is selected by the selector the tenant sent, `!=` on the name included. */
  lemma SelectionCommutes(options: Options, record: Binding)
    requires Scoped(options).Ok? && options.labels.Requirements? && Indifferent(options.labels)
    requires record.namespace == CANONICAL && record.name != PROJECTION
    requires IsProjection(record.labels) ==> IsProjectedName(record.name)
    ensures Selects(Scoped(options).value, record.name, record.namespace, record.labels)
            <==> && IsProjection(record.labels)
                 && Selects(options, Presented(record).name, Presented(record).namespace, Presented(record).labels)
  {
    if IsProjection(record.labels) {
      LabelsCommute(options.labels, record.labels);
      FieldsCommute(options, record.name);
    } else {
      assert Scoped(options).value.labels.requirements[0] == IS_PROJECTION;
    }
  }

  ghost predicate Commutes(options: Options, record: Binding)
    requires Scoped(options).Ok?
  {
    Selects(Scoped(options).value, record.name, record.namespace, record.labels)
    <==> && IsProjection(record.labels)
         && Selects(options, Presented(record).name, Presented(record).namespace, Presented(record).labels)
  }

  ghost predicate Tidy(record: Binding) {
    && record.namespace == CANONICAL && record.name != PROJECTION
    && (IsProjection(record.labels) ==> IsProjectedName(record.name))
  }

  /** Some binding has a name the field selector matches. */
  ghost predicate Nameable(terms: seq<FieldTerm>) {
    exists name :: name != "" && FieldsMatch(terms, name, "")
  }

  /** It does so for every record exactly when the label selector is selectable, or no name matches the field
      selector anyway. The selector that is not selectable is `labels.Nothing()`, which no parsed request
      carries: it has no requirements to keep, and in its place every record is asked for. A parsed selector
      that happens to match nothing is an ordinary one, and kept. */
  lemma CommutesIff(options: Options)
    requires Scoped(options).Ok? && Indifferent(options.labels)
    ensures (forall record: Binding :: Tidy(record) ==> Commutes(options, record))
            <==> options.labels.Requirements? || !Nameable(options.fields)
  {
    if options.labels.Requirements? {
      forall record: Binding | Tidy(record) ensures Commutes(options, record) {
        SelectionCommutes(options, record);
      }
    } else if Nameable(options.fields) {
      NothingSelectsAll(options);
    } else {
      forall record: Binding | Tidy(record) ensures Commutes(options, record) {
        assert Scoped(options).value.labels.requirements[0] == IS_PROJECTION;
        if IsProjection(record.labels) {
          FieldsCommute(options, record.name);
        }
      }
    }
  }

  lemma NothingSelectsAll(options: Options)
    requires Scoped(options).Ok? && options.labels.Nothing? && Nameable(options.fields)
    ensures exists record: Binding :: Tidy(record) && !Commutes(options, record)
  {
    var name :| name != "" && FieldsMatch(options.fields, name, "");
    var labels: Labels := map[PROJECTION_LABEL := "true"];
    var record := Binding(ProjectedName(name), "", CANONICAL, labels, SOME_ROLE, []);
    ProjectedNameComesBack(name);
    FieldsCommute(options, record.name);
    assert Tidy(record) && IsProjection(record.labels);
    assert Scoped(options).value.labels.requirements == [IS_PROJECTION];
    assert Selects(Scoped(options).value, record.name, record.namespace, record.labels);
    assert !Commutes(options, record);
  }

  const SOME_ROLE := RbacBindings.ClusterRole("edit")

  // ------------------------------------------------------------------ deleting a selection

  /** The names of the records a list with these options returns. */
  ghost predicate Lists(t: TenantId, store: Store, options: Options, names: seq<string>) {
    && (forall i, j :: 0 <= i < j < |names| ==> names[i] != names[j])
    && (forall n :: n in names <==>
          var k := (CanonicalNamespace(t), n);
          k in store && Selects(options, n, CANONICAL, store[k].labels))
  }

  function DeleteFrom(t: TenantId, namespaces: seq<string>, store: Store, names: seq<string>, i: nat): Outcome
    requires i <= |names|
    decreases |names| - i
  {
    if i == |names| then Outcome(store, Ok(""))
    else
      var done := Deleted(t, namespaces, store, TrimProjectedName(names[i]));
      if done.answer.Err? then done else DeleteFrom(t, namespaces, done.store, names, i + 1)
  }

  /** DeleteCollection, once the records are listed. */
  method DeleteCollection(p: Projection, names: seq<string>) returns (answer: Result<string>)
    modifies p
    ensures Outcome(p.store, answer) == DeleteFrom(p.t, p.namespaces, old(p.store), names, 0)
  {
    for i := 0 to |names|
      invariant DeleteFrom(p.t, p.namespaces, p.store, names, i) == DeleteFrom(p.t, p.namespaces, old(p.store), names, 0)
    {
      answer := p.DeleteBinding(TrimProjectedName(names[i]));
      if answer.Err? {
        return;
      }
    }
    return Ok("");
  }

  /** Of the tenant's bindings, those a selector does not match. */
  function Spared(live: Live, options: Options): Live {
    map n | n in live && !Selects(options, n, "", live[n].labels - {PROJECTION_LABEL}) :: live[n]
  }

  function Without(live: Live, names: seq<string>, i: nat): Live
    requires i <= |names|
  {
    map n | n in live && ProjectedName(n) !in names[..i] :: live[n]
  }

  lemma {:induction false} DeleteFromRepresents(s: Setting, store: Store, live: Live, names: seq<string>, i: nat)
    requires SettingOk(s) && i <= |names| && Represents(s, store, Without(live, names, i))
    requires forall a, b :: 0 <= a < b < |names| ==> names[a] != names[b]
    requires forall a :: 0 <= a < |names| ==> IsProjectedName(names[a]) && TrimProjectedName(names[a]) in live
    ensures var done := DeleteFrom(s.t, s.namespaces, store, names, i);
            done.answer.Ok? && Represents(s, done.store, Without(live, names, |names|))
    decreases |names| - i
  {
    if i < |names| {
      var name := TrimProjectedName(names[i]);
      ProjectedNameIsOnto(names[i]);
      WithoutOneMore(live, names, i);
      DeleteRepresents(s, store, Without(live, names, i), name);
      DeleteFromRepresents(s, Deleted(s.t, s.namespaces, store, name).store, live, names, i + 1);
    }
  }

  lemma WithoutOneMore(live: Live, names: seq<string>, i: nat)
    requires i < |names| && IsProjectedName(names[i]) && TrimProjectedName(names[i]) in live
    requires forall a, b :: 0 <= a < b < |names| ==> names[a] != names[b]
    ensures TrimProjectedName(names[i]) in Without(live, names, i)
    ensures Without(live, names, i + 1) == Without(live, names, i) - {TrimProjectedName(names[i])}
  {
    ProjectedNameIsOnto(names[i]);
    assert names[..i + 1] == names[..i] + [names[i]];
    forall n ensures ProjectedName(n) == names[i] <==> n == TrimProjectedName(names[i]) {
      ProjectedNameComesBack(n);
    }
  }

  /** No ordinary RoleBinding in the record namespace carries the projection label, and no live binding is
      without a name. */
  ghost predicate LabelsOk(s: Setting, live: Live) {
    && (forall k :: k in s.base && k.0 == CanonicalNamespace(s.t) ==> !IsProjection(s.base[k].labels))
    && "" !in live
  }

  lemma ListedIff(s: Setting, store: Store, live: Live, options: Options, names: seq<string>, n: string)
    requires SettingOk(s) && LabelsOk(s, live) && Represents(s, store, live)
    requires Scoped(options).Ok? && options.labels.Requirements? && Indifferent(options.labels)
    requires Lists(s.t, store, Scoped(options).value, names)
    ensures n in names <==>
              && IsProjectedName(n) && TrimProjectedName(n) in live
              && Selects(options, TrimProjectedName(n), "", live[TrimProjectedName(n)].labels - {PROJECTION_LABEL})
  {
    var k := (CanonicalNamespace(s.t), n);
    assert At(store, k) == Expected(s, live, k);
    if k in store {
      var labels := store[k].labels;
      assert IsProjection(labels) <==> IsProjectedName(n);
      if IsProjectedName(n) {
        ProjectedNameIsOnto(n);
        var own := live[TrimProjectedName(n)].labels;
        assert labels - {PROJECTION_LABEL} == own - {PROJECTION_LABEL};
      }
      SelectionCommutes(options, Binding(n, "", CANONICAL, labels, SOME_ROLE, []));
    }
  }

  /** DeleteCollection deletes exactly the ClusterRoleBindings the tenant's selector matches, with all their
      copies, and spares every other. */
  lemma DeleteCollectionDeletesTheSelected(s: Setting, store: Store, live: Live, options: Options, names: seq<string>)
    requires SettingOk(s) && LabelsOk(s, live) && Represents(s, store, live)
    requires Scoped(options).Ok? && options.labels.Requirements? && Indifferent(options.labels)
    requires Lists(s.t, store, Scoped(options).value, names)
    ensures var done := DeleteFrom(s.t, s.namespaces, store, names, 0);
            done.answer.Ok? && Represents(s, done.store, Spared(live, options))
  {
    forall n ensures n in names <==>
                && IsProjectedName(n) && TrimProjectedName(n) in live
                && Selects(options, TrimProjectedName(n), "", live[TrimProjectedName(n)].labels - {PROJECTION_LABEL})
    {
      ListedIff(s, store, live, options, names, n);
    }
    assert Without(live, names, 0) == live;
    DeleteFromRepresents(s, store, live, names, 0);
    forall n | n in live
      ensures ProjectedName(n) in names[..|names|] <==> Selects(options, n, "", live[n].labels - {PROJECTION_LABEL})
    {
      ProjectedNameComesBack(n);
      assert names[..|names|] == names;
    }
    assert Without(live, names, |names|) == Spared(live, options);
  }
}
