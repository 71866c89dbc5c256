/** Grouping of a form's fields into titled sections (components/templates/ObjectFieldTemplateWrapper.tsx).
    Every property of the schema goes to the section named by its `group` annotation, the unnamed
    section `""` when there is none. The group map is a plain object, so a label that
    `Object.prototype` already supplies makes the build throw, and `Object.keys` lists the sections
    with array-index labels first, in ascending numeric order, then the rest in the order their
    first member appears. */
module SchemaGroups {
  import opened Common
  import JsObject

  /** One entry of the schema's `properties` object: its key and its `group` annotation. The
      entries are listed in `Object.entries` order, which itself puts array-index keys first. */
  datatype Property = Property(name: string, group: Option<string>)

  /** A JSON-Schema-like object. `{}` (what the forms hold before the fetch) has no `properties`. */
  datatype Schema = Schema(properties: Option<seq<Property>>)

  /** `schema?.properties?.[name]` is present. */
  predicate HasProperty(schema: Schema, name: string) {
    schema.properties.Some? && exists i :: 0 <= i < |schema.properties.value| && schema.properties.value[i].name == name
  }

  /** One entry of the group map: a section name and the keys placed in it, in push order. */
  datatype Group = Group(title: string, members: seq<string>)

  /** `value.group || ''` */
  function Label(p: Property): string {
    if p.group.Some? then p.group.value else ""
  }

  function Names(es: seq<Property>): (ns: seq<string>)
    ensures |ns| == |es| && forall i :: 0 <= i < |es| ==> ns[i] == es[i].name
  {
    seq(|es|, i requires 0 <= i < |es| => es[i].name)
  }

  /** The distinct labels of `es`, each at the place where it first occurs. */
  function Labels(es: seq<Property>): seq<string> {
    if es == [] then []
    else
      var prev := Labels(es[..|es| - 1]);
      if Label(es[|es| - 1]) in prev then prev else prev + [Label(es[|es| - 1])]
  }

  /** The names of the entries labelled `g`, in schema order. */
  function Members(es: seq<Property>, g: string): seq<string> {
    if es == [] then []
    else Members(es[..|es| - 1], g) + (if Label(es[|es| - 1]) == g then [es[|es| - 1].name] else [])
  }

  /** Some entry carries a label that a fresh `{}` already answers with an inherited member:
      `groupMap[group]` is truthy, no array is created, and `.push` on it is not a function. */
  predicate HitsInherited(es: seq<Property>) {
    exists i :: 0 <= i < |es| && Label(es[i]) in JsObject.InheritedNames
  }

  /** The group map the wrapper should build for entries `es`, in key-creation order. */
  function GroupMapOf(es: seq<Property>): (gs: seq<Group>)
    ensures |gs| == |Labels(es)|
  {
    var ls := Labels(es);
    seq(|ls|, k requires 0 <= k < |ls| => Group(ls[k], Members(es, ls[k])))
  }

  /** Position of the group named `g`, if there is one (`groupMap[group]`). */
  function FindGroup(gs: seq<Group>, g: string): (r: Option<nat>)
    ensures r.Some? ==> r.value < |gs| && gs[r.value].title == g
    ensures r.None? ==> forall k :: 0 <= k < |gs| ==> gs[k].title != g
  {
    if gs == [] then None
    else if gs[0].title == g then Some(0)
    else match FindGroup(gs[1..], g)
      case None => None
      case Some(k) => Some(k + 1)
  }

  /** The concatenation of all groups' member lists, in group order. */
  function Flatten(gs: seq<Group>): seq<string> {
    if gs == [] then [] else Flatten(gs[..|gs| - 1]) + gs[|gs| - 1].members
  }

  lemma LabelsDistinct(es: seq<Property>)
    ensures forall a, b :: 0 <= a < b < |Labels(es)| ==> Labels(es)[a] != Labels(es)[b]
  {
  }

  /** Completeness of the labels: a section exists exactly for the labels the entries carry. */
  lemma {:induction false} LabelsComplete(es: seq<Property>, g: string)
    ensures g in Labels(es) <==> exists i :: 0 <= i < |es| && Label(es[i]) == g
  {
    if es != [] {
      var init := es[..|es| - 1];
      LabelsComplete(init, g);
      if g in Labels(init) {
        var i :| 0 <= i < |init| && Label(init[i]) == g;
        assert Label(es[i]) == g;
      }
      if exists i :: 0 <= i < |es| && Label(es[i]) == g {
        var i :| 0 <= i < |es| && Label(es[i]) == g;
        if i < |init| {
          assert Label(init[i]) == g;
        }
      }
    }
  }

  /** Sections are only ever appended: the sections of any prefix of the schema come first, in
      the same order, in the sections of the whole schema. */
  lemma {:induction false} LabelsOfPrefix(es: seq<Property>, n: nat)
    requires n <= |es|
    ensures Labels(es[..n]) <= Labels(es)
    decreases |es| - n
  {
    if n < |es| {
      LabelsOfPrefix(es, n + 1);
      assert es[..n + 1][..n] == es[..n];
    } else {
      assert es[..n] == es;
    }
  }

  /** A key lies in a group exactly when some entry with that key carries that label. */
  lemma {:induction false} MembersIff(es: seq<Property>, g: string, n: string)
    ensures n in Members(es, g) <==> exists i :: 0 <= i < |es| && es[i].name == n && Label(es[i]) == g
  {
    if es != [] {
      var init, last := es[..|es| - 1], es[|es| - 1];
      MembersIff(init, g, n);
      assert Members(es, g) == Members(init, g) + (if Label(last) == g then [last.name] else []);
      if n in Members(init, g) {
        var i :| 0 <= i < |init| && init[i].name == n && Label(init[i]) == g;
        assert es[i] == init[i];
      }
      if exists i :: 0 <= i < |es| && es[i].name == n && Label(es[i]) == g {
        var i :| 0 <= i < |es| && es[i].name == n && Label(es[i]) == g;
        if i < |init| {
          assert init[i] == es[i];
        }
      }
    }
  }

  /** Grouping distributes over concatenation: within a group, keys keep the schema's order. */
  lemma {:induction false} MembersAppend(es: seq<Property>, fs: seq<Property>, g: string)
    ensures Members(es + fs, g) == Members(es, g) + Members(fs, g)
    decreases |fs|
  {
    if fs == [] {
      assert es + fs == es;
    } else {
      var fi := fs[..|fs| - 1];
      MembersAppend(es, fi, g);
      assert (es + fs)[..|es + fs| - 1] == es + fi;
    }
  }

  lemma {:induction false} MembersOfUnusedLabel(es: seq<Property>, g: string)
    requires g !in Labels(es)
    ensures Members(es, g) == []
  {
    if es != [] {
      MembersOfUnusedLabel(es[..|es| - 1], g);
    }
  }

  /** One step of the wrapper's loop: the entry goes to its existing group, or opens a new group
      at the end when its label has not been seen before. */
  lemma GroupMapStep(es: seq<Property>, e: Property)
    ensures var gs := GroupMapOf(es);
            var g := Label(e);
            match FindGroup(gs, g)
            case Some(j) => GroupMapOf(es + [e]) == gs[j := Group(g, gs[j].members + [e.name])]
            case None => GroupMapOf(es + [e]) == gs + [Group(g, [e.name])]
  {
    var es' := es + [e];
    var g := Label(e);
    assert es'[..|es'| - 1] == es;
    var gs, gs' := GroupMapOf(es), GroupMapOf(es');
    var ls := Labels(es);
    match FindGroup(gs, g)
    case Some(j) =>
      assert g in ls;
      forall k | 0 <= k < |gs'|
        ensures gs'[k] == gs[j := Group(g, gs[j].members + [e.name])][k]
      {
        LabelsDistinct(es);
      }
    case None =>
      assert forall k :: 0 <= k < |ls| ==> ls[k] == gs[k].title != g;
      assert g !in ls;
      MembersOfUnusedLabel(es, g);
      assert |gs'| == |gs| + 1;
      forall k | 0 <= k < |gs'|
        ensures gs'[k] == (gs + [Group(g, [e.name])])[k]
      {
      }
  }

  lemma {:induction false} FlattenAppendToGroup(gs: seq<Group>, j: nat, n: string)
    requires j < |gs|
    ensures multiset(Flatten(gs[j := Group(gs[j].title, gs[j].members + [n])]))
         == multiset(Flatten(gs)) + multiset{n}
  {
    var gs' := gs[j := Group(gs[j].title, gs[j].members + [n])];
    var last := |gs| - 1;
    assert Flatten(gs) == Flatten(gs[..last]) + gs[last].members;
    assert Flatten(gs') == Flatten(gs'[..last]) + gs'[last].members;
    if j == last {
      assert gs'[..last] == gs[..last];
      assert gs'[last].members == gs[last].members + [n];
    } else {
      assert gs'[..last] == gs[..last][j := Group(gs[j].title, gs[j].members + [n])];
      assert gs'[last] == gs[last];
      FlattenAppendToGroup(gs[..last], j, n);
    }
  }

  /** No key is lost and none is duplicated: the groups, concatenated, are a permutation of the
      schema's keys. */
  lemma {:induction false} GroupMapIsPartition(es: seq<Property>)
    ensures multiset(Flatten(GroupMapOf(es))) == multiset(Names(es))
  {
    if es != [] {
      var init, e := es[..|es| - 1], es[|es| - 1];
      assert es == init + [e];
      assert Names(es) == Names(init) + [e.name];
      GroupMapIsPartition(init);
      GroupMapStep(init, e);
      var gs := GroupMapOf(init);
      match FindGroup(gs, Label(e))
      case Some(j) =>
        FlattenAppendToGroup(gs, j, e.name);
      case None =>
        var gs' := gs + [Group(Label(e), [e.name])];
        assert gs'[..|gs'| - 1] == gs;
    }
  }

  /** `transformSchemaToGroupMap`: builds the group map entry by entry, creating a group the first
      time its label is seen and pushing each key onto its group; it throws at the first entry
      whose label is inherited from `Object.prototype`. */
  method TransformSchemaToGroupMap(schema: Schema) returns (r: Outcome<seq<Group>>)
    ensures schema.properties.None? ==> r == Resolved([])
    ensures schema.properties.Some? ==> (r.Rejected? <==> HitsInherited(schema.properties.value))
    ensures schema.properties.Some? && r.Resolved? ==> r.value == GroupMapOf(schema.properties.value)
    ensures r.Rejected? ==> r.error == Unexpected
  {
    if schema.properties.None? {
      return Resolved([]);
    }
    var es := schema.properties.value;
    var groups := [];
    var i := 0;
    while i < |es|
      invariant 0 <= i <= |es|
      invariant groups == GroupMapOf(es[..i])
      invariant forall j :: 0 <= j < i ==> Label(es[j]) !in JsObject.InheritedNames
    {
      var g := Label(es[i]);
      if g in JsObject.InheritedNames {
        return Rejected(Unexpected);
      }
      GroupMapStep(es[..i], es[i]);
      var j := FindGroup(groups, g);
      if j.None? {
        groups := groups + [Group(g, [])];
        j := Some(|groups| - 1);
      }
      groups := groups[j.value := Group(g, groups[j.value].members + [es[i].name])];
      assert es[..i + 1] == es[..i] + [es[i]];
      i := i + 1;
    }
    assert es[..i] == es;
    return Resolved(groups);
  }

  /** One rendered field of the object template, identified by its property name. */
  datatype Element<C> = Element(name: string, content: C)

  /** The template's props: the schema, the rendered fields, and everything else (`rest`). */
  datatype TemplateProps<C, R> = TemplateProps(schema: Schema, properties: seq<Element<C>>, rest: R)

  function KeepNamed<C>(ps: seq<Element<C>>, group: seq<string>): seq<Element<C>> {
    if ps == [] then []
    else KeepNamed(ps[..|ps| - 1], group) + (if ps[|ps| - 1].name in group then [ps[|ps| - 1]] else [])
  }

  lemma {:induction false} KeepNamedIff<C>(ps: seq<Element<C>>, group: seq<string>, x: Element<C>)
    ensures x in KeepNamed(ps, group) <==> x in ps && x.name in group
  {
    if ps != [] {
      var init := ps[..|ps| - 1];
      KeepNamedIff(init, group, x);
      assert ps == init + [ps[|ps| - 1]];
    }
  }

  /** Filtering keeps relative order: it distributes over concatenation. */
  lemma {:induction false} KeepNamedAppend<C>(ps: seq<Element<C>>, qs: seq<Element<C>>, group: seq<string>)
    ensures KeepNamed(ps + qs, group) == KeepNamed(ps, group) + KeepNamed(qs, group)
    decreases |qs|
  {
    if qs == [] {
      assert ps + qs == ps;
    } else {
      var qi := qs[..|qs| - 1];
      KeepNamedAppend(ps, qi, group);
      assert (ps + qs)[..|ps + qs| - 1] == ps + qi;
    }
  }

  /** `getPropsForGroup`: the same props with only the fields whose name is in the group. */
  function PropsForGroup<C(!new), R>(group: seq<string>, props: TemplateProps<C, R>): (r: TemplateProps<C, R>)
    ensures r.schema == props.schema && r.rest == props.rest
    ensures forall x :: x in r.properties <==> x in props.properties && x.name in group
    ensures |r.properties| <= |props.properties|
  {
    var kept := KeepNamed(props.properties, group);
    assert |kept| <= |props.properties| by { KeepNamedLength(props.properties, group); }
    forall x ensures x in kept <==> x in props.properties && x.name in group {
      KeepNamedIff(props.properties, group, x);
    }
    props.(properties := kept)
  }

  lemma {:induction false} KeepNamedLength<C>(ps: seq<Element<C>>, group: seq<string>)
    ensures |KeepNamed(ps, group)| <= |ps|
  {
    if ps != [] {
      KeepNamedLength(ps[..|ps| - 1], group);
    }
  }

  datatype Section<C, R> = Section(title: string, props: TemplateProps<C, R>)

  function Titles<C, R>(ss: seq<Section<C, R>>): (ts: seq<string>)
    ensures |ts| == |ss| && forall k :: 0 <= k < |ss| ==> ts[k] == ss[k].title
  {
    seq(|ss|, k requires 0 <= k < |ss| => ss[k].title)
  }

  /** What `ObjectFieldTemplateWrapper` renders: one card per group, in `Object.keys` order, each
      holding the template props narrowed to that group; `None` when building the map throws. */
  function Sections<C(!new), R>(props: TemplateProps<C, R>): (r: Option<seq<Section<C, R>>>)
    ensures props.schema.properties.None? ==> r == Some([])
    ensures props.schema.properties.Some? ==>
              var es := props.schema.properties.value;
              && (r.None? <==> HitsInherited(es))
              && (r.Some? ==> Titles(r.value) == JsObject.Keys(Labels(es)))
  {
    match props.schema.properties
    case None => Some([])
    case Some(es) =>
      if HitsInherited(es) then None
      else
        var ts := JsObject.Keys(Labels(es));
        var ss := seq(|ts|, k requires 0 <= k < |ts| => Section(ts[k], PropsForGroup(Members(es, ts[k]), props)));
        assert Titles(ss) == ts;
        Some(ss)
  }

  /** Every group gets exactly one card; cards with an array-index title come first, in
      ascending numeric order, and the others follow in the order their first member appears. */
  lemma SectionOrder<C(!new), R>(props: TemplateProps<C, R>)
    requires props.schema.properties.Some? && Sections(props).Some?
    ensures var ls := Labels(props.schema.properties.value);
            var ts := Titles(Sections(props).value);
            var n := |JsObject.IndexKeys(ls)|;
            && multiset(ts) == multiset(ls)
            && n <= |ts|
            && (forall k :: 0 <= k < n ==> JsObject.IsIndexKey(ts[k]))
            && (forall k, j :: 0 <= k < j < n ==> JsObject.Rank(ts[k]) <= JsObject.Rank(ts[j]))
            && ts[n..] == JsObject.OtherKeys(ls)
  {
    JsObject.KeysOrder(Labels(props.schema.properties.value));
  }

  /** A field is drawn in card k exactly when the schema gives its name that card's label; with
      distinct labels this places every field of the schema in exactly one card. */
  lemma ElementInSection<C(!new), R>(props: TemplateProps<C, R>, k: nat, x: Element<C>)
    requires props.schema.properties.Some? && Sections(props).Some?
    requires k < |Sections(props).value|
    ensures var es := props.schema.properties.value;
            x in Sections(props).value[k].props.properties <==>
              x in props.properties
              && exists i :: 0 <= i < |es| && es[i].name == x.name && Label(es[i]) == JsObject.Keys(Labels(es))[k]
  {
    var es := props.schema.properties.value;
    var ts := JsObject.Keys(Labels(es));
    assert Sections(props).value[k].props == PropsForGroup(Members(es, ts[k]), props);
    MembersIff(es, ts[k], x.name);
  }

  /** Card order is not first-appearance order: fields grouped "b" then "1" render the "1" card
      first. */
  lemma IndexLabelRendersFirst<C(!new), R>(ps: seq<Element<C>>, rest: R)
    ensures var es := [Property("a", Some("b")), Property("c", Some("1"))];
            var r := Sections(TemplateProps(Schema(Some(es)), ps, rest));
            r.Some? && Titles(r.value) == ["1", "b"]
  {
    var es := [Property("a", Some("b")), Property("c", Some("1"))];
    assert es[..1] == [es[0]];
    assert Labels([es[0]]) == ["b"];
    assert Labels(es) == ["b", "1"];
    assert !HitsInherited(es) by {
      assert "b" !in JsObject.InheritedNames && "1" !in JsObject.InheritedNames;
    }
    JsObject.IndexKeysComeFirst();
  }
}
