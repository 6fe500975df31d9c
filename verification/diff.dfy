/** Drift detection for kinds outside the scheme: `Diff`, `TwoWayDiff` and
    `ThreeWayDiff` over plain JSON objects. */
module Diff {
  import opened Json
  import opened MergePatch

  datatype DiffResult = DiffResult(modified: bool, predictedLive: Fields, normalizedLive: Fields)

  /** kubectl's last-applied annotation of the live object, as decoded. */
  datatype LastApplied = Absent | Malformed | Decoded(orig: Fields)

  /** What the source's type assertions demand of an object's metadata. */
  predicate MetadataTyped(o: Fields) {
    "metadata" in o ==>
      && o["metadata"].Obj?
      && var m := o["metadata"].fields;
         "annotations" in m ==> m["annotations"] == Null || m["annotations"].Obj?
  }

  /** Drops `metadata.creationTimestamp`. */
  function Normalize(o: Fields): (r: Fields)
    ensures MetadataTyped(o) ==> MetadataTyped(r)
  {
    if "metadata" in o && o["metadata"].Obj? then
      o["metadata" := Obj(o["metadata"].fields - {"creationTimestamp"})]
    else o
  }

  /** Drops `metadata.namespace` and an empty or null annotation map. */
  function RemoveNamespaceAnnotation(o: Fields): Fields
    requires MetadataTyped(o)
  {
    if "metadata" in o then
      var m := o["metadata"].fields - {"namespace"};
      var blank := "annotations" in m && (m["annotations"] == Null || m["annotations"].fields == map[]);
      o["metadata" := Obj(if blank then m - {"annotations"} else m)]
    else o
  }

  /** What of the configuration takes part in the comparison. */
  function Compared(config: Fields): Fields
    requires MetadataTyped(config)
  {
    RemoveNamespaceAnnotation(Normalize(config))
  }

  function ThreeWayDiff(orig: Fields, config: Fields, live: Fields): DiffResult
    requires MetadataTyped(orig) && MetadataTyped(config)
  {
    var o, c := RemoveNamespaceAnnotation(orig), RemoveNamespaceAnnotation(config);
    var patch := ThreeWayPatch(Obj(o), Obj(c), Obj(ProjectMap(o, live)));
    var predicted := Merge(Obj(live), patch).fields;
    DiffResult(predicted != live, predicted, live)
  }

  /** `None` is the source's error for two missing objects. */
  function TwoWayDiff(config: Option<Fields>, live: Option<Fields>): Option<DiffResult>
    requires config.Some? ==> MetadataTyped(config.value)
  {
    match (config, live)
    case (Some(c), Some(l)) => Some(ThreeWayDiff(c, c, l))
    case (None, Some(l)) => Some(DiffResult(false, map[], l))
    case (Some(c), None) => Some(DiffResult(true, c, map[]))
    case (None, None) => None
  }

  function Diff(config: Option<Fields>, live: Option<Fields>, applied: LastApplied): Option<DiffResult>
    requires config.Some? ==> MetadataTyped(config.value)
    requires applied.Decoded? ==> MetadataTyped(applied.orig)
  {
    var c := if config.Some? then Some(Normalize(config.value)) else None;
    var l := if live.Some? then Some(Normalize(live.value)) else None;
    if l.Some? && applied.Decoded? && c.Some? then
      Some(ThreeWayDiff(Normalize(applied.orig), c.value, l.value))
    else
      TwoWayDiff(c, l)
  }

  /** What is compared: all fields but for the creation timestamp, the namespace,
      and annotations that are null or empty. */
  lemma ComparedInFull(config: Fields)
    requires MetadataTyped(config)
    ensures Compared(config).Keys == config.Keys
    ensures forall k :: k in config && k != "metadata" ==> Compared(config)[k] == config[k]
    ensures "metadata" in config ==>
              var m := config["metadata"].fields;
              && Compared(config)["metadata"].Obj?
              && forall k :: SameAt(Compared(config)["metadata"].fields, m, k) <==>
                    k !in m || !(k == "creationTimestamp" || k == "namespace"
                                 || (k == "annotations" && (m[k] == Null || m[k] == Obj(map[]))))
    ensures "metadata" in config ==>
              forall k :: k in Compared(config)["metadata"].fields ==> k in config["metadata"].fields
  {
  }

  /** Of the live object, all but its creation timestamp. */
  lemma NormalizedInFull(live: Fields)
    ensures Normalize(live).Keys == live.Keys
    ensures forall k :: k in live && !(k == "metadata" && live[k].Obj?) ==> Normalize(live)[k] == live[k]
    ensures "metadata" in live && live["metadata"].Obj? ==>
              Normalize(live)["metadata"] == Obj(live["metadata"].fields - {"creationTimestamp"})
  {
  }

  /** What is only configured is missing, and so modified; what is only live is
      not; of nothing there is no comparison. */
  lemma DiffOfMissing(config: Option<Fields>, live: Option<Fields>, applied: LastApplied)
    requires config.Some? ==> MetadataTyped(config.value)
    requires applied.Decoded? ==> MetadataTyped(applied.orig)
    requires config.None? || live.None?
    ensures var d := Diff(config, live, applied);
            && (d.None? <==> config.None? && live.None?)
            && (d.Some? ==>
                  && d.value.modified == config.Some?
                  && d.value.predictedLive == (if config.Some? then Normalize(config.value) else map[])
                  && d.value.normalizedLive == (if live.Some? then Normalize(live.value) else map[]))
  {
  }

  lemma NormalizedNullFree(config: Fields)
    requires MetadataTyped(config) && NullFree(Obj(config))
    ensures NullFree(Obj(Compared(config)))
  {
  }

  /** Without kubectl's annotation, drift is reported exactly when the compared
      configuration is not embedded in the normalised live object. */
  lemma TwoWayDriftExact(config: Fields, live: Fields, applied: LastApplied)
    requires MetadataTyped(config) && NullFree(Obj(config)) && !applied.Decoded?
    ensures Diff(Some(config), Some(live), applied).value.modified <==>
            !Embedded(Obj(Compared(config)), Obj(Normalize(live)))
  {
    var c, l := Obj(Compared(config)), Obj(Normalize(live));
    NormalizedNullFree(config);
    ProjectionEmbedded(c, l);
    PatchIsNoOpExactly(c, Project(c, l), c, l);
    NothingLeftOfItself(c, l);
    HeldViaOwnProjection(c, l);
  }

  /** With it, also whatever the last applied object had and the configuration
      dropped counts, and lists are compared through the last applied object. */
  lemma ThreeWayDriftExact(config: Fields, live: Fields, orig: Fields)
    requires MetadataTyped(config) && MetadataTyped(orig) && NullFree(Obj(config))
    ensures var c, l, o := Obj(Compared(config)), Obj(Normalize(live)), Obj(Compared(orig));
            Diff(Some(config), Some(live), Decoded(orig)).value.modified <==>
            !(Held(Project(o, l), c, l) && NothingLeft(o, c, l))
  {
    var c, l, o := Obj(Compared(config)), Obj(Normalize(live)), Obj(Compared(orig));
    NormalizedNullFree(config);
    ProjectionEmbedded(o, l);
    PatchIsNoOpExactly(o, Project(o, l), c, l);
  }

  /** In every case the predicted object embeds the configuration; so an
      unmodified live object does, kubectl's annotation or not. */
  lemma PredictedEmbedsConfig(config: Fields, live: Fields, applied: LastApplied)
    requires MetadataTyped(config) && NullFree(Obj(config))
    requires applied.Decoded? ==> MetadataTyped(applied.orig)
    ensures var d := Diff(Some(config), Some(live), applied).value;
            && Embedded(Obj(Compared(config)), Obj(d.predictedLive))
            && d.normalizedLive == Normalize(live)
            && (d.modified <==> d.predictedLive != d.normalizedLive)
  {
    var c, l := Obj(Compared(config)), Obj(Normalize(live));
    var o := if applied.Decoded? then Obj(Compared(applied.orig)) else c;
    NormalizedNullFree(config);
    ProjectionEmbedded(o, l);
    DeletionsSpare(o, c);
    PatchedEmbeds(Project(o, l), l, c, KeepNulls(Delta(o, c)));
  }

  /** Live values the configuration says nothing about are predicted to stay. */
  lemma PredictedKeepsUnmentioned(config: Fields, live: Fields, applied: LastApplied, path: seq<string>)
    requires MetadataTyped(config) && NullFree(Obj(config)) && !applied.Decoded?
    requires !Mentions(Obj(Compared(config)), path)
    requires Lookup(Obj(Normalize(live)), path).Some?
    ensures Lookup(Obj(Diff(Some(config), Some(live), applied).value.predictedLive), path)
         == Lookup(Obj(Normalize(live)), path)
  {
    var c, l := Obj(Compared(config)), Obj(Normalize(live));
    NormalizedNullFree(config);
    OwnPatchWithin(Project(c, l), c);
    MergeKeepsUnmentioned(l, ThreeWayPatch(c, c, Project(c, l)), c, path);
  }

  lemma ComparedWithin(config: Fields)
    requires MetadataTyped(config) && "metadata" in config
    ensures Embedded(Obj(Compared(config)), Obj(Normalize(config)))
  {
    var c, l := Compared(config), Normalize(config);
    forall k | k in c ensures k in l && Embedded(c[k], l[k]) {
      if k == "metadata" {
        forall f | f in c[k].fields ensures f in l[k].fields && Embedded(c[k].fields[f], l[k].fields[f]) {
          EmbeddedReflexive(l[k].fields[f]);
        }
      } else {
        EmbeddedReflexive(l[k]);
      }
    }
  }

  lemma EmbeddedInMore(c: Json, l: Fields, x: string, v: Json)
    requires Embedded(c, Obj(l)) && x !in l
    ensures Embedded(c, Obj(l[x := v]))
  {
  }

  /** The kubectl case really differs: any field that was last applied, is live
      and is dropped from the configuration is drift there, although the
      configuration is embedded in live; without the annotation it is not. */
  lemma ThreeWayReportsMoreThanEmbedding(config: Fields, x: string, v: Json)
    requires MetadataTyped(config) && NullFree(Obj(config)) && {"apiVersion", "kind", "metadata"} <= config.Keys
    requires x !in config
    ensures var live := config[x := v];
            && Embedded(Obj(Compared(config)), Obj(Normalize(live)))
            && !Diff(Some(config), Some(live), Absent).value.modified
            && Diff(Some(config), Some(live), Decoded(live)).value.modified
  {
    hide Embedded;
    var live := config[x := v];
    assert "metadata" in config;
    ComparedWithin(config);
    EmbeddedInMore(Obj(Compared(config)), Normalize(config), x, v);
    assert Normalize(live) == Normalize(config)[x := v];
    TwoWayDriftExact(config, live, Absent);
    ThreeWayDriftExact(config, live, live);
    assert x in Compared(live) && x in Normalize(live) && x !in Compared(config);
  }
}
