/** For kinds outside the scheme, drift detection over plain JSON meets what the
    manager relies on. */
module Contract {
  import opened Json
  import opened Objects
  import opened MergePatch
  import opened Cluster
  import opened Manager
  import opened Applying
  import D = Diff

  function Strings(m: map<string, string>): Fields {
    map k | k in m :: Str(m[k])
  }

  const SEPARATE := {"namespace", "name", "labels", "annotations"}

  /** Which fields the metadata of an object has. */
  predicate HasField(o: Object, k: string) {
    if k == "namespace" then o.ns != ""
    else if k == "name" then o.name != ""
    else if k == "labels" then o.labels != map[]
    else if k == "annotations" then o.annotations != map[]
    else k in o.meta
  }

  function Field(o: Object, k: string): Json
    requires HasField(o, k)
  {
    if k == "namespace" then Str(o.ns)
    else if k == "name" then Str(o.name)
    else if k == "labels" then Obj(Strings(o.labels))
    else if k == "annotations" then Obj(Strings(o.annotations))
    else o.meta[k]
  }

  function Metadata(o: Object): Fields {
    map k | k in o.meta.Keys + SEPARATE && HasField(o, k) :: Field(o, k)
  }

  lemma MetadataAt(o: Object, k: string)
    ensures k in Metadata(o) <==> HasField(o, k)
    ensures k in Metadata(o) ==> Metadata(o)[k] == Field(o, k)
  {
  }

  /** The JSON document of an object. */
  function Document(o: Object): (f: Fields)
    ensures D.MetadataTyped(f) && "apiVersion" in f && "kind" in f && "metadata" in f
  {
    (o.rest - {"apiVersion", "kind", "metadata"})
    + map["apiVersion" := Str(o.apiVersion), "kind" := Str(o.kind), "metadata" := Obj(Metadata(o))]
  }

  /** The live object under the identity of the one it is compared with. */
  function LiveObject(o: Object, l: Live): Object {
    Object(o.apiVersion, o.kind, o.ns, o.name, l.labels, l.annotations, l.meta, l.rest)
  }

  lemma StringsBack(f: Fields, k: string, m: map<string, string>)
    requires if m == map[] then k !in f else k in f && f[k] == Obj(Strings(m))
    ensures StringMapField(f, k) == m
  {
  }

  lemma MetadataBack(o: Object)
    requires Plain(o)
    ensures var m := Metadata(o);
            && StringField(m, "namespace") == o.ns && StringField(m, "name") == o.name
            && StringMapField(m, "labels") == o.labels && StringMapField(m, "annotations") == o.annotations
  {
    hide Strings, StringMapField, Metadata, Plain;
    MetadataAt(o, "namespace");
    MetadataAt(o, "name");
    MetadataAt(o, "labels");
    MetadataAt(o, "annotations");
    StringsBack(Metadata(o), "labels", o.labels);
    StringsBack(Metadata(o), "annotations", o.annotations);
  }

  /** Taking a document apart and putting it together again. */
  lemma DocumentRoundTrip(o: Object)
    requires Plain(o)
    ensures Wrap(Document(o)) == o
  {
    hide Metadata, StringMapField;
    MetadataBack(o);
    var f, m := Document(o), Metadata(o);
    assert MapField(f, "metadata") == m;
    assert m - SEPARATE == o.meta by {
      forall k ensures k in m - SEPARATE <==> k in o.meta
        ensures k in o.meta ==> m[k] == o.meta[k]
      {
        MetadataAt(o, k);
      }
    }
    assert f - {"apiVersion", "kind", "metadata"} == o.rest;
  }

  /** The diff of the controller, with kubectl's annotation decoded by `decode`.
      On an annotation whose metadata has the wrong types the source panics. */
  function JsonDiff(decode: string -> D.LastApplied): (Object, Live) -> Verdict {
    (o: Object, l: Live) => Compare(decode, o, l)
  }

  function Compare(decode: string -> D.LastApplied, o: Object, l: Live): Verdict {
    var applied := if KUBECTL_ANNOTATION in l.annotations then decode(l.annotations[KUBECTL_ANNOTATION]) else D.Absent;
    if applied.Decoded? && !D.MetadataTyped(applied.orig) then DiffFailed
    else if D.Diff(Some(Document(o)), Some(Document(LiveObject(o, l))), applied).value.modified then Drifted
    else UpToDate
  }

  /** What takes part in the comparison of `o`. */
  function Side(o: Object): Json {
    Obj(D.Compared(Document(o)))
  }

  function LiveSide(o: Object, l: Live): Json {
    Obj(D.Normalize(Document(LiveObject(o, l))))
  }

  lemma StringsEmbedded(a: map<string, string>, b: map<string, string>)
    ensures Embedded(Obj(Strings(a)), Obj(Strings(b))) <==> Submap(a, b)
  {
    assert forall k :: k in a && k in b ==> (Embedded(Strings(a)[k], Strings(b)[k]) <==> a[k] == b[k]);
    if Embedded(Obj(Strings(a)), Obj(Strings(b))) {
      forall k | k in a ensures k in b && b[k] == a[k] {
        assert k in Strings(a);
      }
    }
  }

  /** The metadata compared, and that of the live object. */
  function MetadataSide(o: Object): Fields {
    Metadata(o) - {"creationTimestamp", "namespace"}
  }

  lemma DocumentMetadata(o: Object)
    ensures Document(o)["metadata"] == Obj(Metadata(o))
  {
  }

  /** Annotations in a document are never blank. */
  lemma AnnotationsNotBlank(o: Object)
    requires "annotations" in Metadata(o)
    ensures var a := Metadata(o)["annotations"]; a.Obj? && a.fields != map[]
  {
    hide Metadata;
    MetadataAt(o, "annotations");
    var k :| k in o.annotations;
    assert k in Strings(o.annotations);
  }

  lemma SideTakenApart(o: Object)
    ensures Side(o).fields == Document(o)["metadata" := Obj(MetadataSide(o))]
  {
    hide Document, Metadata;
    DocumentMetadata(o);
    var m := Metadata(o) - {"creationTimestamp"};
    var n := m - {"namespace"};
    assert n == Metadata(o) - {"creationTimestamp", "namespace"};
    assert D.Normalize(Document(o)) == Document(o)["metadata" := Obj(m)];
    if "annotations" in n {
      AnnotationsNotBlank(o);
      assert n["annotations"] == Metadata(o)["annotations"];
    }
  }

  lemma LiveSideTakenApart(o: Object, l: Live)
    ensures LiveSide(o, l).fields
         == Document(LiveObject(o, l))["metadata" := Obj(Metadata(LiveObject(o, l)) - {"creationTimestamp"})]
  {
    hide Document, Metadata;
    DocumentMetadata(LiveObject(o, l));
  }

  lemma SidesTakenApart(o: Object, l: Live)
    ensures var c, r := Side(o).fields, LiveSide(o, l).fields;
            && c == Document(o)["metadata" := Obj(MetadataSide(o))]
            && r == Document(LiveObject(o, l))["metadata" := Obj(Metadata(LiveObject(o, l)) - {"creationTimestamp"})]
  {
    hide Side, LiveSide, Document, Metadata, MetadataSide;
    SideTakenApart(o);
    LiveSideTakenApart(o, l);
  }

  /** One field of the metadata. */
  predicate FieldEmbedded(o: Object, l: Live, k: string) {
    HasField(o, k) ==> HasField(LiveObject(o, l), k) && Embedded(Field(o, k), Field(LiveObject(o, l), k))
  }

  lemma MetadataEmbeddedFieldwise(o: Object, l: Live)
    ensures Embedded(Obj(MetadataSide(o)), Obj(Metadata(LiveObject(o, l)) - {"creationTimestamp"})) <==>
              forall k :: k != "creationTimestamp" && k != "namespace" ==> FieldEmbedded(o, l, k)
  {
    hide HasField, Field, Metadata;
    var c, r := MetadataSide(o), Metadata(LiveObject(o, l)) - {"creationTimestamp"};
    forall k | k != "creationTimestamp" && k != "namespace"
      ensures FieldEmbedded(o, l, k) <==> (k in c ==> k in r && Embedded(c[k], r[k]))
    {
      MetadataAt(o, k);
      MetadataAt(LiveObject(o, l), k);
    }
  }

  lemma NothingEmbedded(a: map<string, string>, b: map<string, string>)
    ensures a == map[] ==> Submap(a, b)
    ensures a != map[] && b == map[] ==> !Submap(a, b)
  {
    if a != map[] {
      var k :| k in a;
    }
  }

  lemma LabelsEmbedded(o: Object, l: Live)
    ensures FieldEmbedded(o, l, "labels") <==> Submap(o.labels, l.labels)
    ensures FieldEmbedded(o, l, "annotations") <==> Submap(o.annotations, l.annotations)
    ensures FieldEmbedded(o, l, "name")
  {
    hide Strings, Submap;
    StringsEmbedded(o.labels, l.labels);
    StringsEmbedded(o.annotations, l.annotations);
    NothingEmbedded(o.labels, l.labels);
    NothingEmbedded(o.annotations, l.annotations);
  }

  lemma OwnEmbedded(o: Object, l: Live, k: string)
    requires Plain(o) && k != "creationTimestamp" && k !in SEPARATE
    ensures FieldEmbedded(o, l, k) <==> (k in o.meta ==> k in l.meta && Embedded(o.meta[k], l.meta[k]))
  {
  }

  lemma MetadataEmbedded(o: Object, l: Live)
    requires Plain(o)
    ensures Embedded(Obj(MetadataSide(o)), Obj(Metadata(LiveObject(o, l)) - {"creationTimestamp"})) <==>
              && Submap(o.labels, l.labels) && Submap(o.annotations, l.annotations)
              && Embedded(Obj(o.meta - {"creationTimestamp"}), Obj(l.meta))
  {
    hide MetadataSide, Metadata, Submap, FieldEmbedded;
    MetadataEmbeddedFieldwise(o, l);
    LabelsEmbedded(o, l);
    var own := o.meta - {"creationTimestamp"};
    forall k | k != "creationTimestamp" && k !in SEPARATE
      ensures FieldEmbedded(o, l, k) <==> (k in own ==> k in l.meta && Embedded(own[k], l.meta[k]))
    {
      OwnEmbedded(o, l, k);
    }
  }

  lemma DocumentAt(o: Object, k: string)
    requires k != "metadata" && k != "apiVersion" && k != "kind"
    ensures k in Document(o) <==> k in o.rest
    ensures k in o.rest ==> Document(o)[k] == o.rest[k]
  {
  }

  predicate RestEmbedded(o: Object, l: Live, k: string) {
    k in o.rest ==> k in l.rest && Embedded(o.rest[k], l.rest[k])
  }

  lemma SideAt(o: Object, l: Live, k: string)
    requires o.rest.Keys !! {"apiVersion", "kind", "metadata"} && k != "metadata"
    ensures var c, r := Side(o).fields, LiveSide(o, l).fields;
            (k in c ==> k in r && Embedded(c[k], r[k])) <==> RestEmbedded(o, l, k)
  {
    hide MetadataSide, Metadata, Side, LiveSide;
    SidesTakenApart(o, l);
    if k != "apiVersion" && k != "kind" {
      DocumentAt(o, k);
      DocumentAt(LiveObject(o, l), k);
    }
  }

  lemma MetadataIsNotRest(o: Object, l: Live)
    requires "metadata" !in o.rest
    ensures RestEmbedded(o, l, "metadata")
  {
  }

  lemma SidesFieldwise(o: Object, l: Live)
    requires o.rest.Keys !! {"apiVersion", "kind", "metadata"}
    ensures Embedded(Side(o), LiveSide(o, l)) <==>
              && Embedded(Obj(MetadataSide(o)), Obj(Metadata(LiveObject(o, l)) - {"creationTimestamp"}))
              && forall k :: RestEmbedded(o, l, k)
  {
    hide MetadataSide, Metadata, Document, RestEmbedded;
    SidesTakenApart(o, l);
    var c, r := Side(o).fields, LiveSide(o, l).fields;
    forall k | k != "metadata" ensures (k in c ==> k in r && Embedded(c[k], r[k])) <==> RestEmbedded(o, l, k) {
      SideAt(o, l, k);
    }
    MetadataIsNotRest(o, l);
  }

  /** The sides are embedded exactly when the objects are. */
  lemma SidesEmbedded(o: Object, l: Live)
    requires Plain(o)
    ensures Embedded(Side(o), LiveSide(o, l)) <==> Embeds(o, l)
  {
    hide Side, LiveSide, MetadataSide, Metadata, Submap;
    SidesFieldwise(o, l);
    MetadataEmbedded(o, l);
    if forall k :: RestEmbedded(o, l, k) {
      forall k | k in o.rest ensures k in l.rest && Embedded(o.rest[k], l.rest[k]) {
        assert RestEmbedded(o, l, k);
      }
    }
  }

  // ------------------------------------------------------------ the diff contract

  lemma PlainMetadata(o: Object)
    requires Plain(o)
    ensures NullFree(Obj(Metadata(o)))
  {
    hide Metadata;
    forall k | k in Metadata(o) ensures NullFree(Metadata(o)[k]) {
      MetadataAt(o, k);
    }
  }

  lemma PlainIsNullFree(o: Object)
    requires Plain(o)
    ensures NullFree(Obj(Document(o)))
  {
    hide Metadata;
    PlainMetadata(o);
    forall k | k in Document(o) ensures NullFree(Document(o)[k]) {
      if k != "metadata" && k != "apiVersion" && k != "kind" {
        DocumentAt(o, k);
        assert NullFree(o.rest[k]);
      }
    }
  }

  lemma UpToDateEmbeds(decode: string -> D.LastApplied, o: Object, l: Live)
    requires Plain(o) && Compare(decode, o, l) == UpToDate
    ensures Embeds(o, l)
  {
    hide Document, Embeds, Plain, D.Diff;
    PlainIsNullFree(o);
    var applied := if KUBECTL_ANNOTATION in l.annotations then decode(l.annotations[KUBECTL_ANNOTATION]) else D.Absent;
    D.PredictedEmbedsConfig(Document(o), Document(LiveObject(o, l)), applied);
    SidesEmbedded(o, l);
  }

  lemma EmbeddedIsUpToDate(decode: string -> D.LastApplied, o: Object, l: Live)
    requires Plain(o) && Embeds(o, l) && KUBECTL_ANNOTATION !in l.annotations
    ensures Compare(decode, o, l) == UpToDate
  {
    hide Document, Embeds, Plain, D.Diff;
    PlainIsNullFree(o);
    D.TwoWayDriftExact(Document(o), Document(LiveObject(o, l)), D.Absent);
    SidesEmbedded(o, l);
  }

  /** And what kubectl applied, the manifest dropped, and is still live, is
      drift. */
  lemma DroppedIsDrift(decode: string -> D.LastApplied, o: Object, l: Live, x: string)
    requires Plain(o) && KUBECTL_ANNOTATION in l.annotations
    requires var applied := decode(l.annotations[KUBECTL_ANNOTATION]);
             applied.Decoded? && D.MetadataTyped(applied.orig) && x in applied.orig
    requires x !in {"apiVersion", "kind", "metadata"} && x !in o.rest && x in l.rest
    ensures Compare(decode, o, l) == Drifted
  {
    hide Plain, D.Diff, Metadata;
    var orig := decode(l.annotations[KUBECTL_ANNOTATION]).orig;
    PlainIsNullFree(o);
    D.ThreeWayDriftExact(Document(o), Document(LiveObject(o, l)), orig);
    DocumentAt(o, x);
    DocumentAt(LiveObject(o, l), x);
    D.ComparedInFull(Document(o));
    D.ComparedInFull(orig);
    D.NormalizedInFull(Document(LiveObject(o, l)));
    assert x in D.Compared(orig) && x !in D.Compared(Document(o)) && x in D.Normalize(Document(LiveObject(o, l)));
  }

  predicate MapAt(j: Json, k: string) {
    j.Obj? && k in j.fields
  }

  lemma OneDeep(j: Json, x: string)
    ensures Lookup(j, [x]) == if MapAt(j, x) then Some(j.fields[x]) else None
  {
    assert [x][1..] == [];
    if MapAt(j, x) {
      assert Lookup(j.fields[x], []) == Some(j.fields[x]);
    }
  }

  lemma ThreeDeep(j: Json, a: string, b: string, x: string)
    ensures Lookup(j, [a, b, x]) ==
              if MapAt(j, a) && MapAt(j.fields[a], b) && MapAt(j.fields[a].fields[b], x)
              then Some(j.fields[a].fields[b].fields[x]) else None
  {
    assert [a, b, x][1..] == [b, x] && [b, x][1..] == [x];
    if MapAt(j, a) {
      assert Lookup(j, [a, b, x]) == Lookup(j.fields[a], [b, x]);
      if MapAt(j.fields[a], b) {
        assert Lookup(j.fields[a], [b, x]) == Lookup(j.fields[a].fields[b], [x]);
        OneDeep(j.fields[a].fields[b], x);
      }
    }
  }

  /** The labels of an object, as seen from the top of its side. */
  lemma LabelPath(o: Object, x: string)
    requires x in o.labels
    ensures Lookup(Side(o), ["metadata", "labels", x]) == Some(Str(o.labels[x]))
  {
    hide Document, Metadata;
    MetadataAt(o, "labels");
    ThreeDeep(Side(o), "metadata", "labels", x);
    SidesTakenApart(o, Live(map[], map[], map[], map[], {}, false));
  }

  lemma LiveLabelPath(o: Object, l: Live, x: string)
    ensures var v := Lookup(LiveSide(o, l), ["metadata", "labels", x]);
            v.Some? ==> x in l.labels && v.value == Str(l.labels[x])
  {
    hide Document, Metadata;
    MetadataAt(LiveObject(o, l), "labels");
    ThreeDeep(LiveSide(o, l), "metadata", "labels", x);
    SidesTakenApart(o, l);
  }

  lemma UpToDateChangesNothing(decode: string -> D.LastApplied, o: Object, l: Live) returns (last: Json)
    requires Compare(decode, o, l) == UpToDate
    ensures last.Obj? && Merge(LiveSide(o, l), ThreeWayPatch(last, Side(o), Project(last, LiveSide(o, l))))
              == LiveSide(o, l)
  {
    var applied := if KUBECTL_ANNOTATION in l.annotations then decode(l.annotations[KUBECTL_ANNOTATION]) else D.Absent;
    last := if applied.Decoded? then Obj(D.Compared(applied.orig)) else Side(o);
  }

  /** Nulls in the configuration or not, the labels are predicted. */
  lemma PredictedHasLabel(decode: string -> D.LastApplied, o: Object, l: Live, x: string)
    requires Compare(decode, o, l) == UpToDate && x in o.labels
    ensures x in l.labels && l.labels[x] == o.labels[x]
  {
    hide Document, D.Compared, D.Normalize, D.RemoveNamespaceAnnotation;
    var c, r := Side(o), LiveSide(o, l);
    var last := UpToDateChangesNothing(decode, o, l);
    LabelPath(o, x);
    ProjectionEmbedded(last, r);
    PatchedPath(last, Project(last, r), r, c, ["metadata", "labels", x]);
    LiveLabelPath(o, l, x);
  }

  /** So the manager's diff, for kinds outside the scheme, is all it needs to
      be, whatever kubectl left behind. */
  lemma JsonDiffMeetsContract(decode: string -> D.LastApplied)
    ensures LabelSound(JsonDiff(decode)) && DiffSound(JsonDiff(decode)) && DiffComplete(JsonDiff(decode))
  {
    hide Compare, Plain, Embeds;
    forall o: Object, l: Live | Compare(decode, o, l) == UpToDate ensures Submap(o.labels, l.labels) {
      forall x | x in o.labels ensures x in l.labels && l.labels[x] == o.labels[x] {
        PredictedHasLabel(decode, o, l, x);
      }
    }
    forall o: Object, l: Live | Plain(o) && Compare(decode, o, l) == UpToDate ensures Embeds(o, l) {
      UpToDateEmbeds(decode, o, l);
    }
    forall o: Object, l: Live | Plain(o) && Embeds(o, l) && KUBECTL_ANNOTATION !in l.annotations
      ensures Compare(decode, o, l) == UpToDate
    {
      EmbeddedIsUpToDate(decode, o, l);
    }
  }
}
