/** What applying a manifest does to the cluster. */
module Applying {
  import opened Json
  import opened Objects
  import opened Cluster
  import opened Manager
  import opened Sorting

  const KUBECTL_ANNOTATION := "kubectl.kubernetes.io/last-applied-configuration"

  /** An object reported up to date has the labels of the one to be applied. */
  ghost predicate LabelSound(diff: (Object, Live) -> Verdict) {
    forall o, l :: diff(o, l) == UpToDate ==> Submap(o.labels, l.labels)
  }

  /** It embeds that object altogether, if that has no nulls. */
  ghost predicate DiffSound(diff: (Object, Live) -> Verdict) {
    forall o, l :: Plain(o) && diff(o, l) == UpToDate ==> Embeds(o, l)
  }

  /** And one that does is reported so, but for kubectl's annotation. */
  ghost predicate DiffComplete(diff: (Object, Live) -> Verdict) {
    forall o, l :: Plain(o) && Embeds(o, l) && KUBECTL_ANNOTATION !in l.annotations ==> diff(o, l) == UpToDate
  }

  /** A write of an apply: it leaves an object of the manifest, stamped, or
      deletes one to recreate it. */
  ghost function ApplyRule(m: Settings, checksum: string, objects: seq<Object>): (World, Write) -> bool {
    (w: World, x: Write) => exists o :: o in objects && WritesObject(m, checksum, o, w.objs, x)
  }

  predicate Terminating(objs: map<Key, Live>, k: Key) {
    k in objs && objs[k].terminating
  }

  ghost predicate WritesObject(m: Settings, checksum: string, o: Object, objs: map<Key, Live>, x: Write) {
    && (x.Put? || x.Remove?) && x.key == Id(o)
    && ([x] == DeleteWrites(objs, x.key)
        || (x.Put? && Embeds(Stamp(m, checksum, o), x.live) && x.live.terminating == Terminating(objs, x.key)))
  }

  /** `w'` differs from `w` at the object `k` at most. */
  ghost predicate OnlyAt(k: Key, w: World, w': World) {
    && w' == w.(objs := w'.objs)
    && forall j :: j != k ==> SameAt(w.objs, w'.objs, j)
  }

  /** `o` is embedded in its live object. */
  predicate EmbeddedLive(o: Object, objs: map<Key, Live>) {
    Id(o) in objs && Embeds(o, objs[Id(o)])
  }

  lemma AppliedEmbeds(objs: map<Key, Live>, o: Object, proposal: Live)
    ensures Embeds(o, Applied(objs, o, proposal)) && Applied(objs, o, proposal).terminating == Terminating(objs, Id(o))
  {
    EmbeddedReflexive(Obj(o.meta));
    EmbeddedReflexive(Obj(o.rest));
  }

  lemma OnlyAtChain(k: Key, a: World, b: World, c: World)
    requires OnlyAt(k, a, b) && OnlyAt(k, b, c)
    ensures OnlyAt(k, a, c)
  {
    forall j | j != k ensures SameAt(a.objs, c.objs, j) {
      assert SameAt(a.objs, b.objs, j) && SameAt(b.objs, c.objs, j);
    }
  }

  lemma StampKeepsId(m: Settings, checksum: string, o: Object)
    ensures Id(Stamp(m, checksum, o)) == Id(o)
  {
  }

  /** Lawful writes that touch `k` at most. */
  ghost predicate LawfulAt(m: Settings, checksum: string, objects: seq<Object>, k: Key, w: World, writes: seq<Write>) {
    Steps(w, writes, ApplyRule(m, checksum, objects)) && OnlyAt(k, w, Replay(w, writes))
  }

  lemma NoWrites(m: Settings, checksum: string, objects: seq<Object>, k: Key, w: World)
    ensures LawfulAt(m, checksum, objects, k, w, []) && Replay(w, []) == w
  {
  }

  lemma LawfulAtConcat(m: Settings, checksum: string, objects: seq<Object>, k: Key, w: World, xs: seq<Write>,
                       ys: seq<Write>)
    requires LawfulAt(m, checksum, objects, k, w, xs) && LawfulAt(m, checksum, objects, k, Replay(w, xs), ys)
    ensures LawfulAt(m, checksum, objects, k, w, xs + ys) && Replay(w, xs + ys) == Replay(Replay(w, xs), ys)
  {
    ReplayConcat(w, xs, ys);
    StepsConcat(w, xs, ys, ApplyRule(m, checksum, objects));
    OnlyAtChain(k, w, Replay(w, xs), Replay(Replay(w, xs), ys));
  }

  /** Server-side apply of a stamped object: lawful writes at that object, and
      without an error the live object embeds it. */
  lemma {:induction false} SsaWrites(m: Settings, w: World, o: Object, checksum: string, isNew: bool, dryRun: bool,
                                     patches: seq<PatchAnswer>, objects: seq<Object>)
    requires o in objects
    ensures var (writes, ok) := SsaOutcome(m, w, Stamp(m, checksum, o), isNew, dryRun, patches);
            && LawfulAt(m, checksum, objects, Id(o), w, writes)
            && (dryRun ==> writes == [])
            && (ok && !dryRun ==> EmbeddedLive(Stamp(m, checksum, o), Replay(w, writes).objs))
    decreases patches
  {
    hide Stamp, Embeds, Applied, LawfulAt, DeleteWrites;
    var s := Stamp(m, checksum, o);
    StampKeepsId(m, checksum, o);
    NoWrites(m, checksum, objects, Id(o), w);
    if patches != [] {
      match patches[0]
      case Accepted(p) =>
        AppliedEmbeds(w.objs, s, p);
        OnePut(m, w, o, checksum, Applied(w.objs, s, p), objects);
      case Refused(landed) =>
        if landed.Some? {
          AppliedEmbeds(w.objs, s, landed.value);
          OnePut(m, w, o, checksum, Applied(w.objs, s, landed.value), objects);
        }
      case Immutable(ack) =>
        var deletes := IfLanded(ack, DeleteWrites(w.objs, Id(o)));
        OneDelete(m, w, o, checksum, deletes, objects);
        if ack.Done? {
          SsaWrites(m, Replay(w, deletes), o, checksum, isNew, dryRun, patches[1..], objects);
          LawfulAtConcat(m, checksum, objects, Id(o), w, deletes,
                         SsaOutcome(m, Replay(w, deletes), s, isNew, dryRun, patches[1..]).0);
        }
    }
  }

  lemma OnePut(m: Settings, w: World, o: Object, checksum: string, l: Live, objects: seq<Object>)
    requires o in objects && Embeds(Stamp(m, checksum, o), l) && l.terminating == Terminating(w.objs, Id(o))
    ensures var w' := Replay(w, [Put(Id(o), l)]);
            && LawfulAt(m, checksum, objects, Id(o), w, [Put(Id(o), l)])
            && Id(o) in w'.objs && w'.objs[Id(o)] == l
  {
    var x := Put(Id(o), l);
    assert WritesObject(m, checksum, o, w.objs, x);
    assert Replay(w, [x]) == Replay(Do(w, x), []);
    assert Steps(Do(w, x), [], ApplyRule(m, checksum, objects));
  }

  lemma OneDelete(m: Settings, w: World, o: Object, checksum: string, deletes: seq<Write>, objects: seq<Object>)
    requires o in objects && (deletes == [] || deletes == DeleteWrites(w.objs, Id(o)))
    ensures LawfulAt(m, checksum, objects, Id(o), w, deletes)
  {
    if deletes != [] {
      var x := deletes[0];
      assert deletes == [x] && WritesObject(m, checksum, o, w.objs, x);
      assert Replay(w, [x]) == Replay(Do(w, x), []);
      assert Steps(Do(w, x), [], ApplyRule(m, checksum, objects));
    }
  }

  /** The live object carries the labels of this apply. */
  predicate Carries(m: Settings, checksum: string, objs: map<Key, Live>, k: Key) {
    k in objs && Submap(GcLabels(m.owner, checksum), objs[k].labels)
  }

  lemma LabelledCarries(m: Settings, checksum: string, o: Object, objs: map<Key, Live>)
    requires Id(o) in objs && Submap(Stamp(m, checksum, o).labels, objs[Id(o)].labels)
    ensures Carries(m, checksum, objs, Id(o))
  {
    forall k | k in GcLabels(m.owner, checksum)
      ensures k in objs[Id(o)].labels && objs[Id(o)].labels[k] == GcLabels(m.owner, checksum)[k]
    {
      assert k in Stamp(m, checksum, o).labels;
    }
  }

  /** One object: its writes are lawful, touch nothing else, none in a dry run. */
  lemma ObjectWrites(m: Settings, w: World, o: Object, checksum: string, dryRun: bool, script: Script,
                     objects: seq<Object>)
    requires o in objects
    ensures var out := ObjectOutcome(m, w, o, checksum, dryRun, script);
            LawfulAt(m, checksum, objects, Id(o), w, out.writes) && (dryRun ==> out.writes == [])
  {
    hide Embeds, LawfulAt;
    StampKeepsId(m, checksum, o);
    NoWrites(m, checksum, objects, Id(o), w);
    SsaWrites(m, w, o, checksum, true, dryRun, script.patches, objects);
    SsaWrites(m, w, o, checksum, false, dryRun, script.patches, objects);
  }

  /** The object is found and current: nothing to do. */
  predicate Current(m: Settings, checksum: string, objs: map<Key, Live>, o: Object) {
    && Id(o) in objs
    && LAST_APPLIED in objs[Id(o)].annotations
    && objs[Id(o)].annotations[LAST_APPLIED] == Stamp(m, checksum, o).annotations[LAST_APPLIED]
    && m.diff(Stamp(m, checksum, o), objs[Id(o)]) == UpToDate
  }

  /** Only a current object is left alone without a word. */
  lemma SilentExactlyWhenCurrent(m: Settings, w: World, o: Object, checksum: string, dryRun: bool, script: Script)
    ensures var out := ObjectOutcome(m, w, o, checksum, dryRun, script);
            && (out.changes == [] <==> !script.getFails && Current(m, checksum, w.objs, o))
            && (out.changes == [] ==> out == Outcome([], [], true))
  {
  }

  lemma EmbeddedCarries(m: Settings, checksum: string, o: Object, objs: map<Key, Live>)
    requires EmbeddedLive(Stamp(m, checksum, o), objs)
    ensures Carries(m, checksum, objs, Id(o))
  {
    hide Carries;
    StampKeepsId(m, checksum, o);
    LabelledCarries(m, checksum, o, objs);
  }

  lemma CurrentSettled(m: Settings, checksum: string, objs: map<Key, Live>, o: Object)
    requires Current(m, checksum, objs, o)
    ensures LabelSound(m.diff) ==> Carries(m, checksum, objs, Id(o))
    ensures DiffSound(m.diff) && Plain(o) ==> EmbeddedLive(Stamp(m, checksum, o), objs)
  {
    hide Carries;
    if LabelSound(m.diff) {
      LabelledCarries(m, checksum, o, objs);
    }
  }

  /** Without an error, and in a dry run without a change, the live object
      carries the labels; a plain object is embedded in it. */
  lemma ObjectSettled(m: Settings, w: World, o: Object, checksum: string, dryRun: bool, script: Script)
    requires var out := ObjectOutcome(m, w, o, checksum, dryRun, script); out.ok && (!dryRun || out.changes == [])
    ensures var objs := Replay(w, ObjectOutcome(m, w, o, checksum, dryRun, script).writes).objs;
            && (LabelSound(m.diff) ==> Carries(m, checksum, objs, Id(o)))
            && (DiffSound(m.diff) && Plain(o) ==> EmbeddedLive(Stamp(m, checksum, o), objs))
  {
    hide LawfulAt, Carries, SsaOutcome, Stamp, EmbeddedLive, LabelSound, DiffSound, Plain, Current;
    var out := ObjectOutcome(m, w, o, checksum, dryRun, script);
    SilentExactlyWhenCurrent(m, w, o, checksum, dryRun, script);
    if out.changes == [] {
      NoWrites(m, checksum, [o], Id(o), w);
      CurrentSettled(m, checksum, w.objs, o);
    } else {
      SsaWrites(m, w, o, checksum, true, dryRun, script.patches, [o]);
      SsaWrites(m, w, o, checksum, false, dryRun, script.patches, [o]);
      EmbeddedCarries(m, checksum, o, Replay(w, out.writes).objs);
    }
  }

  lemma CarriesElsewhere(m: Settings, checksum: string, k: Key, w: World, w': World, j: Key)
    requires OnlyAt(k, w, w') && j != k
    ensures Carries(m, checksum, w'.objs, j) <==> Carries(m, checksum, w.objs, j)
  {
    assert SameAt(w.objs, w'.objs, j);
  }

  lemma OnlyObjs(k: Key, w0: World, w: World, w': World)
    requires OnlyAt(k, w, w') && w == w0.(objs := w.objs)
    ensures w' == w0.(objs := w'.objs)
  {
  }

  /** The first `n` objects of a manifest: every write is lawful, and none in a
      dry run. */
  lemma {:induction false} ManifestWrites(m: Settings, w: World, objects: seq<Object>, checksum: string, dryRun: bool,
                                          scripts: seq<Script>, n: nat)
    requires |scripts| == |objects| && n <= |objects|
    ensures var out := OutcomeUpTo(m, w, objects, checksum, dryRun, scripts, n);
            && Steps(w, out.writes, ApplyRule(m, checksum, objects))
            && Replay(w, out.writes) == w.(objs := Replay(w, out.writes).objs)
            && (dryRun ==> out.writes == [])
  {
    hide ObjectOutcome, OnlyAt, ApplyRule;
    if n > 0 {
      ManifestWrites(m, w, objects, checksum, dryRun, scripts, n - 1);
      var done := OutcomeUpTo(m, w, objects, checksum, dryRun, scripts, n - 1);
      if done.ok {
        var out := OneMoreObject(m, w, objects, checksum, dryRun, scripts, n - 1);
        var here := Replay(w, done.writes);
        ObjectWrites(m, here, objects[n - 1], checksum, dryRun, scripts[n - 1], objects);
        StepsConcat(w, done.writes, out.writes, ApplyRule(m, checksum, objects));
        OnlyObjs(Id(objects[n - 1]), w, here, Replay(here, out.writes));
      }
    }
  }

  lemma OneMoreCarries(m: Settings, objects: seq<Object>, checksum: string, n: nat, here: World, there: World)
    requires 0 < n <= |objects| && OnlyAt(Id(objects[n - 1]), here, there)
    requires Carries(m, checksum, there.objs, Id(objects[n - 1]))
    requires forall i :: 0 <= i < n - 1 ==> Carries(m, checksum, here.objs, Id(objects[i]))
    ensures forall i :: 0 <= i < n ==> Carries(m, checksum, there.objs, Id(objects[i]))
  {
    hide OnlyAt, Carries;
    forall i | 0 <= i < n ensures Carries(m, checksum, there.objs, Id(objects[i])) {
      if Id(objects[i]) != Id(objects[n - 1]) {
        CarriesElsewhere(m, checksum, Id(objects[n - 1]), here, there, Id(objects[i]));
      }
    }
  }

  /** Without an error, and in a dry run without a change, each of the first
      `n` objects carries the labels. */
  lemma {:induction false} ManifestCarries(m: Settings, w: World, objects: seq<Object>, checksum: string, dryRun: bool,
                                           scripts: seq<Script>, n: nat)
    requires |scripts| == |objects| && n <= |objects| && LabelSound(m.diff)
    requires var out := OutcomeUpTo(m, w, objects, checksum, dryRun, scripts, n);
             out.ok && (!dryRun || out.changes == [])
    ensures var w' := Replay(w, OutcomeUpTo(m, w, objects, checksum, dryRun, scripts, n).writes);
            forall i :: 0 <= i < n ==> Carries(m, checksum, w'.objs, Id(objects[i]))
  {
    hide ObjectOutcome, OnlyAt, Carries, EmbeddedLive, Steps, LabelSound, DiffSound;
    if n > 0 {
      var done := OutcomeUpTo(m, w, objects, checksum, dryRun, scripts, n - 1);
      ManifestCarries(m, w, objects, checksum, dryRun, scripts, n - 1);
      var out := OneMoreObject(m, w, objects, checksum, dryRun, scripts, n - 1);
      var here := Replay(w, done.writes);
      ObjectWrites(m, here, objects[n - 1], checksum, dryRun, scripts[n - 1], objects);
      ObjectSettled(m, here, objects[n - 1], checksum, dryRun, scripts[n - 1]);
      OneMoreCarries(m, objects, checksum, n, here, Replay(here, out.writes));
    }
  }

  // ------------------------------------------------------- skipping the apply

  lemma {:induction false} SilentManifest(m: Settings, w: World, objects: seq<Object>, checksum: string, dryRun: bool,
                                          scripts: seq<Script>, n: nat)
    requires |scripts| == |objects| && n <= |objects|
    ensures OutcomeUpTo(m, w, objects, checksum, dryRun, scripts, n).changes == [] <==>
              forall i :: 0 <= i < n ==> !scripts[i].getFails && Current(m, checksum, w.objs, objects[i])
    ensures OutcomeUpTo(m, w, objects, checksum, dryRun, scripts, n).changes == [] ==>
              OutcomeUpTo(m, w, objects, checksum, dryRun, scripts, n) == Outcome([], [], true)
  {
    hide ObjectOutcome, Current;
    if n > 0 {
      SilentManifest(m, w, objects, checksum, dryRun, scripts, n - 1);
      var done := OutcomeUpTo(m, w, objects, checksum, dryRun, scripts, n - 1);
      SilentExactlyWhenCurrent(m, Replay(w, done.writes), objects[n - 1], checksum, dryRun, scripts[n - 1]);
    }
  }

  /** An empty dry run means that a real apply, whatever the server would
      answer to patches, writes nothing and reports nothing. */
  lemma SkippingIsApplying(m: Settings, w: World, objects: seq<Object>, checksum: string, dry: seq<Script>,
                           wet: seq<Script>)
    requires |dry| == |objects| == |wet|
    requires ManifestOutcome(m, w, objects, checksum, true, dry).changes == []
    requires forall i :: 0 <= i < |wet| ==> !wet[i].getFails
    ensures ManifestOutcome(m, w, objects, checksum, false, wet) == Outcome([], [], true)
  {
    SilentManifest(m, w, objects, checksum, true, dry, |objects|);
    SilentManifest(m, w, objects, checksum, false, wet, |objects|);
  }

  /** The checksum of an object covers its labels: it is not current for two
      manifests, so that a new manifest relabels even unchanged objects. */
  lemma CurrentForOneManifest(m: Settings, objs: map<Key, Live>, o: Object, a: string, b: string)
    requires Current(m, a, objs, o) && Current(m, b, objs, o)
    requires Injective(m.hash.single, iset{Labelled(m, a, o), Labelled(m, b, o)})
    ensures a == b
  {
    var x, y := Labelled(m, a, o), Labelled(m, b, o);
    assert m.hash.single(x) == m.hash.single(y);
    assert x.labels[CHECKSUM_LABEL] == a && y.labels[CHECKSUM_LABEL] == b;
  }

  // -------------------------------------------------------------- idempotence

  predicate Distinct(objects: seq<Object>) {
    forall i, j :: 0 <= i < j < |objects| ==> Id(objects[i]) != Id(objects[j])
  }

  lemma EmbeddedElsewhere(o: Object, k: Key, w: World, w': World)
    requires OnlyAt(k, w, w') && Id(o) != k && EmbeddedLive(o, w.objs)
    ensures EmbeddedLive(o, w'.objs)
  {
    assert SameAt(w.objs, w'.objs, Id(o));
  }

  /** After a real apply of distinct objects each of the first `n` is embedded
      in its live object. */
  lemma {:induction false} AllEmbedded(m: Settings, w: World, objects: seq<Object>, checksum: string,
                                       scripts: seq<Script>, n: nat)
    requires |scripts| == |objects| && n <= |objects| && Distinct(objects) && DiffSound(m.diff)
    requires forall o :: o in objects ==> Plain(o)
    requires OutcomeUpTo(m, w, objects, checksum, false, scripts, n).ok
    ensures var objs := Replay(w, OutcomeUpTo(m, w, objects, checksum, false, scripts, n).writes).objs;
            forall i :: 0 <= i < n ==> EmbeddedLive(Stamp(m, checksum, objects[i]), objs)
  {
    hide ObjectOutcome, OnlyAt, EmbeddedLive, Stamp, LabelSound, DiffSound, Carries, Plain;
    if n > 0 {
      AllEmbedded(m, w, objects, checksum, scripts, n - 1);
      var done := OutcomeUpTo(m, w, objects, checksum, false, scripts, n - 1);
      var out := OneMoreObject(m, w, objects, checksum, false, scripts, n - 1);
      var o, here := objects[n - 1], Replay(w, done.writes);
      var there := Replay(here, out.writes);
      ObjectWrites(m, here, o, checksum, false, scripts[n - 1], objects);
      ObjectSettled(m, here, o, checksum, false, scripts[n - 1]);
      forall i | 0 <= i < n - 1 ensures EmbeddedLive(Stamp(m, checksum, objects[i]), there.objs) {
        StampKeepsId(m, checksum, objects[i]);
        EmbeddedElsewhere(Stamp(m, checksum, objects[i]), Id(o), here, there);
      }
    }
  }

  // ------------------------------------------------ what live objects hold then

  /** The labels of `o` but for the three of the controller, its annotations but
      for the checksum, and the rest of its document are live. */
  predicate Holds(o: Object, l: Live) {
    && (forall k :: k in o.labels && k !in {NAME_LABEL, NAMESPACE_LABEL, CHECKSUM_LABEL} ==>
          k in l.labels && l.labels[k] == o.labels[k])
    && (forall k :: k in o.annotations && k != LAST_APPLIED ==>
          k in l.annotations && l.annotations[k] == o.annotations[k])
    && Embedded(Obj(o.meta - {"creationTimestamp"}), Obj(l.meta)) && Embedded(Obj(o.rest), Obj(l.rest))
  }

  /** `o` is live under its identity, held, and labelled and annotated by the
      controller: its owner, the checksum of the manifest, and the checksum of
      the object with those labels and without that annotation. */
  predicate LiveWith(m: Settings, checksum: string, o: Object, objs: map<Key, Live>) {
    var k, labels := Id(o), map[NAME_LABEL := m.owner.name, NAMESPACE_LABEL := m.owner.ns, CHECKSUM_LABEL := checksum];
    && k in objs && Holds(o, objs[k])
    && (forall x :: x in labels ==> x in objs[k].labels && objs[k].labels[x] == labels[x])
    && LAST_APPLIED in objs[k].annotations
    && objs[k].annotations[LAST_APPLIED] == m.hash.single(o.(labels := o.labels + labels))
  }

  /** The applied copy differs from the object at three labels and one
      annotation only. */
  lemma StampAddsFour(m: Settings, checksum: string, o: Object)
    ensures var s := Stamp(m, checksum, o);
            && s == o.(labels := s.labels, annotations := s.annotations)
            && (forall k :: k !in {NAME_LABEL, NAMESPACE_LABEL, CHECKSUM_LABEL} ==> SameAt(s.labels, o.labels, k))
            && (forall k :: k != LAST_APPLIED ==> SameAt(s.annotations, o.annotations, k))
            && NAME_LABEL in s.labels && s.labels[NAME_LABEL] == m.owner.name
            && NAMESPACE_LABEL in s.labels && s.labels[NAMESPACE_LABEL] == m.owner.ns
            && CHECKSUM_LABEL in s.labels && s.labels[CHECKSUM_LABEL] == checksum
            && LAST_APPLIED in s.annotations
            && s.annotations[LAST_APPLIED] == m.hash.single(s.(annotations := o.annotations))
  {
  }

  lemma EmbeddedHolds(m: Settings, checksum: string, o: Object, l: Live)
    requires Embeds(Stamp(m, checksum, o), l)
    ensures Holds(o, l)
  {
    hide Stamp;
    var s := Stamp(m, checksum, o);
    StampAddsFour(m, checksum, o);
    assert forall k :: k in o.labels && k !in {NAME_LABEL, NAMESPACE_LABEL, CHECKSUM_LABEL} ==>
        SameAt(s.labels, o.labels, k);
    assert forall k :: k in o.annotations && k != LAST_APPLIED ==> SameAt(s.annotations, o.annotations, k);
  }

  lemma StampedChecksum(m: Settings, checksum: string, o: Object)
    ensures var labels := map[NAME_LABEL := m.owner.name, NAMESPACE_LABEL := m.owner.ns, CHECKSUM_LABEL := checksum];
            && Stamp(m, checksum, o).annotations[LAST_APPLIED] == m.hash.single(o.(labels := o.labels + labels))
            && Submap(labels, Stamp(m, checksum, o).labels)
  {
    var labels := map[NAME_LABEL := m.owner.name, NAMESPACE_LABEL := m.owner.ns, CHECKSUM_LABEL := checksum];
    assert GcLabels(m.owner, checksum) == labels;
  }

  lemma EmbeddedIsLiveWith(m: Settings, checksum: string, o: Object, objs: map<Key, Live>)
    requires EmbeddedLive(Stamp(m, checksum, o), objs)
    ensures LiveWith(m, checksum, o, objs)
  {
    hide Stamp, Holds;
    StampKeepsId(m, checksum, o);
    EmbeddedHolds(m, checksum, o, objs[Id(o)]);
    StampedChecksum(m, checksum, o);
    StampAddsFour(m, checksum, o);
  }

  /** A real apply without error leaves every object of a manifest live with
      what the manifest says. */
  lemma AppliedIsLive(m: Settings, w: World, objects: seq<Object>, checksum: string, scripts: seq<Script>, o: Object)
    requires |scripts| == |objects| && Distinct(objects) && DiffSound(m.diff) && o in objects
    requires forall x :: x in objects ==> Plain(x)
    requires ManifestOutcome(m, w, objects, checksum, false, scripts).ok
    ensures LiveWith(m, checksum, o, Replay(w, ManifestOutcome(m, w, objects, checksum, false, scripts).writes).objs)
  {
    hide OutcomeUpTo, EmbeddedLive, LiveWith;
    AllEmbedded(m, w, objects, checksum, scripts, |objects|);
    EmbeddedIsLiveWith(m, checksum, o,
                       Replay(w, ManifestOutcome(m, w, objects, checksum, false, scripts).writes).objs);
  }

  /** So is every object that is left alone without a word, in a dry run too. */
  lemma SilentIsLive(m: Settings, w: World, o: Object, checksum: string, dryRun: bool, script: Script)
    requires DiffSound(m.diff) && Plain(o) && ObjectOutcome(m, w, o, checksum, dryRun, script).changes == []
    ensures LiveWith(m, checksum, o, w.objs)
  {
    hide EmbeddedLive, LiveWith, ObjectOutcome;
    SilentExactlyWhenCurrent(m, w, o, checksum, dryRun, script);
    CurrentSettled(m, checksum, w.objs, o);
    EmbeddedIsLiveWith(m, checksum, o, w.objs);
  }

  /** Applying the same manifest again does nothing. */
  lemma ApplyIsIdempotent(m: Settings, w: World, objects: seq<Object>, checksum: string, first: seq<Script>,
                          again: seq<Script>)
    requires |first| == |objects| == |again| && Distinct(objects)
    requires DiffSound(m.diff) && DiffComplete(m.diff) && forall o :: o in objects ==> Plain(o)
    requires ManifestOutcome(m, w, objects, checksum, false, first).ok
    requires var w' := Replay(w, ManifestOutcome(m, w, objects, checksum, false, first).writes);
             forall o :: o in objects && Id(o) in w'.objs ==> KUBECTL_ANNOTATION !in w'.objs[Id(o)].annotations
    requires forall i :: 0 <= i < |again| ==> !again[i].getFails
    ensures var w' := Replay(w, ManifestOutcome(m, w, objects, checksum, false, first).writes);
            ManifestOutcome(m, w', objects, checksum, false, again) == Outcome([], [], true)
  {
    var w' := Replay(w, ManifestOutcome(m, w, objects, checksum, false, first).writes);
    AllEmbedded(m, w, objects, checksum, first, |objects|);
    forall i | 0 <= i < |objects| ensures Current(m, checksum, w'.objs, objects[i]) {
      assert LAST_APPLIED in Stamp(m, checksum, objects[i]).annotations;
    }
    SilentManifest(m, w', objects, checksum, false, again, |objects|);
  }

  // ---------------------------------------------------------------- prediction

  /** A forced apply gets through: deleted as often as asked for, then taken. */
  predicate GetsThrough(patches: seq<PatchAnswer>) {
    patches != [] &&
    match patches[0]
    case Accepted(_) => true
    case Refused(_) => false
    case Immutable(ack) => ack.Done? && GetsThrough(patches[1..])
  }

  /** The server's first verdict on the real patch, if it comes to one, is that
      of the dry run, and an object it asks to recreate can be recreated. */
  predicate SameVerdict(m: Settings, dry: Script, wet: Script) {
    && dry.getFails == wet.getFails
    && (dry.patches == [] <==> wet.patches == [])
    && (dry.patches != [] ==>
          match dry.patches[0]
          case Accepted(_) => wet.patches[0].Accepted?
          case Refused(_) => wet.patches[0].Refused?
          case Immutable(_) => wet.patches[0].Immutable? && (m.force ==> GetsThrough(wet.patches)))
  }

  lemma {:induction false} GetsThroughApplies(m: Settings, w: World, o: Object, patches: seq<PatchAnswer>)
    requires m.force && GetsThrough(patches)
    ensures SsaOutcome(m, w, o, false, false, patches).1
    decreases patches
  {
    if patches[0].Immutable? {
      GetsThroughApplies(m, Replay(w, IfLanded(patches[0].delete, DeleteWrites(w.objs, Id(o)))), o, patches[1..]);
    }
  }

  lemma SamePrediction(m: Settings, w: World, here: World, o: Object, checksum: string, dry: Script, wet: Script)
    requires SameVerdict(m, dry, wet)
    requires SameAt(w.objs, here.objs, Id(o))
    ensures var d, r := ObjectOutcome(m, w, o, checksum, true, dry), ObjectOutcome(m, here, o, checksum, false, wet);
            d.changes == r.changes && d.ok == r.ok
  {
    if m.force && wet.patches != [] && wet.patches[0].Immutable? {
      GetsThroughApplies(m, here, Stamp(m, checksum, o), wet.patches);
    }
  }

  lemma SameAtSelf(k: Key, w: World)
    ensures SameAt(w.objs, w.objs, k)
  {
  }

  lemma UntouchedElsewhere(m: Settings, checksum: string, objects: seq<Object>, k: Key, w: World, here: World,
                           writes: seq<Write>, j: Key)
    requires LawfulAt(m, checksum, objects, k, here, writes) && j != k && SameAt(w.objs, here.objs, j)
    ensures SameAt(w.objs, Replay(here, writes).objs, j)
  {
    assert SameAt(here.objs, Replay(here, writes).objs, j);
  }

  predicate NotAmong(k: Key, objects: seq<Object>, n: nat)
    requires n <= |objects|
  {
    forall i :: 0 <= i < n ==> Id(objects[i]) != k
  }

  /** Applying the first `n` leaves all other keys as they were. */
  lemma {:induction false} AppliesThereOnly(m: Settings, w: World, objects: seq<Object>, checksum: string,
                                            scripts: seq<Script>, n: nat, k: Key)
    requires |scripts| == |objects| && n <= |objects| && NotAmong(k, objects, n)
    ensures SameAt(w.objs, Replay(w, OutcomeUpTo(m, w, objects, checksum, false, scripts, n).writes).objs, k)
  {
    hide ObjectOutcome, SameAt, LawfulAt, EmbeddedLive, Stamp;
    if n > 0 {
      AppliesThereOnly(m, w, objects, checksum, scripts, n - 1, k);
      var done := OutcomeUpTo(m, w, objects, checksum, false, scripts, n - 1);
      if done.ok {
        var out := OneMoreObject(m, w, objects, checksum, false, scripts, n - 1);
        var here := Replay(w, done.writes);
        ObjectWrites(m, here, objects[n - 1], checksum, false, scripts[n - 1], objects);
        UntouchedElsewhere(m, checksum, objects, Id(objects[n - 1]), w, here, out.writes, k);
      }
    } else {
      SameAtSelf(k, w);
    }
  }

  /** A dry run of distinct objects writes nothing, and predicts the change set
      and the result. */
  lemma {:induction false} DryRunPredicts(m: Settings, w: World, objects: seq<Object>, checksum: string,
                                          dry: seq<Script>, wet: seq<Script>, n: nat)
    requires |dry| == |objects| == |wet| && n <= |objects| && Distinct(objects)
    requires forall i :: 0 <= i < |dry| ==> SameVerdict(m, dry[i], wet[i])
    ensures var d := OutcomeUpTo(m, w, objects, checksum, true, dry, n);
            var r := OutcomeUpTo(m, w, objects, checksum, false, wet, n);
            d.changes == r.changes && d.ok == r.ok && d.writes == []
  {
    hide ObjectOutcome, SameVerdict, Steps, Distinct, NotAmong, SameAt;
    ManifestWrites(m, w, objects, checksum, true, dry, n);
    if n > 0 {
      DryRunPredicts(m, w, objects, checksum, dry, wet, n - 1);
      var r := OutcomeUpTo(m, w, objects, checksum, false, wet, n - 1);
      if r.ok {
        DistinctNotAmong(objects, n - 1);
        AppliesThereOnly(m, w, objects, checksum, wet, n - 1, Id(objects[n - 1]));
        SamePrediction(m, w, Replay(w, r.writes), objects[n - 1], checksum, dry[n - 1], wet[n - 1]);
      }
    }
  }

  lemma DistinctNotAmong(objects: seq<Object>, n: nat)
    requires Distinct(objects) && n < |objects|
    ensures NotAmong(Id(objects[n]), objects, n)
  {
  }

  // ------------------------------------------------------- results and changes

  /** The n-th patch is the first that is not answered by a call to recreate. */
  predicate TakenAt(patches: seq<PatchAnswer>, n: nat) {
    n < |patches| && patches[n].Accepted? && forall i :: 0 <= i < n ==> patches[i] == Immutable(Done)
  }

  /** A server-side apply succeeds exactly when a patch is accepted: the first
      one, or, forced and of an object that was found, the first after deletions
      that were all acknowledged. A dry run would go on to delete, but does not. */
  lemma {:induction false} SsaSucceedsExactly(m: Settings, w: World, o: Object, isNew: bool, dryRun: bool,
                                              patches: seq<PatchAnswer>)
    ensures var (writes, ok) := SsaOutcome(m, w, o, isNew, dryRun, patches);
            && (!dryRun ==>
                  (ok <==> exists n :: 0 <= n && TakenAt(patches, n) && (n > 0 ==> !isNew && m.force)))
            && (dryRun ==>
                  && writes == []
                  && (ok <==> patches != [] &&
                              (patches[0].Accepted? || (patches[0].Immutable? && !isNew && m.force))))
            && (patches != [] && patches[0].Immutable? && (isNew || !m.force) ==> writes == [])
    decreases patches
  {
    if patches != [] && !dryRun {
      if patches[0].Accepted? {
        assert TakenAt(patches, 0);
      } else if patches[0] == Immutable(Done) && !isNew && m.force {
        var w' := Replay(w, DeleteWrites(w.objs, Id(o)));
        SsaSucceedsExactly(m, w', o, isNew, dryRun, patches[1..]);
        TakenLater(patches);
      }
    }
  }

  lemma TakenLater(patches: seq<PatchAnswer>)
    requires patches != [] && patches[0] == Immutable(Done)
    ensures (exists n :: 0 <= n && TakenAt(patches, n)) <==> (exists n :: 0 <= n && TakenAt(patches[1..], n))
  {
    if n :| 0 <= n && TakenAt(patches, n) {
      assert TakenAt(patches[1..], n - 1);
    }
    if n :| 0 <= n && TakenAt(patches[1..], n) {
      forall i | 0 <= i < n + 1 ensures patches[i] == Immutable(Done) {
        assert i > 0 ==> patches[i] == patches[1..][i - 1];
      }
      assert TakenAt(patches, n + 1);
    }
  }

  /** At most one change is reported for an object, and one for each failure:
      created where it was missing, configured where it was found. */
  lemma ChangeReported(m: Settings, w: World, o: Object, checksum: string, dryRun: bool, script: Script)
    ensures var out := ObjectOutcome(m, w, o, checksum, dryRun, script);
            && (out.changes == [] || out.changes ==
                  [Change(Id(o), if !out.ok then Failing else if Id(o) in w.objs then Configured else Created)])
            && (!out.ok ==> out.changes != [])
            && (Id(o) !in w.objs ==> out.changes != [])
            && (script.getFails ==> !out.ok && out.writes == [])
  {
  }

  // ------------------------------------------------------------ forced applies

  /** The server calls the patch invalid as long as the object exists, however
      the deletions end, and accepts it once the object is gone. */
  predicate Insists(w: World, o: Object, patches: seq<PatchAnswer>)
    decreases patches
  {
    patches == [] ||
    if Id(o) !in w.objs then patches[0].Accepted?
    else
      && patches[0].Immutable?
      && Insists(Replay(w, IfLanded(patches[0].delete, DeleteWrites(w.objs, Id(o)))), o, patches[1..])
  }

  /** An object that deleting only marks is deleted over and over until the
      deadline: the apply never succeeds, and the object stays. */
  lemma {:induction false} ForcedApplyIsStuck(m: Settings, w: World, o: Object, patches: seq<PatchAnswer>)
    requires m.force && Id(o) in w.objs && Stays(w.objs[Id(o)]) && Insists(w, o, patches)
    ensures var (writes, ok) := SsaOutcome(m, w, o, false, false, patches);
            var objs := Replay(w, writes).objs;
            && !ok && Id(o) in objs
            && objs[Id(o)] == (if writes == [] then w.objs[Id(o)] else w.objs[Id(o)].(terminating := true))
            && ((forall p :: p in patches ==> p.Immutable? && p.delete.Done?) ==> |writes| == |patches|)
    decreases patches
  {
    if patches != [] {
      var deletes := IfLanded(patches[0].delete, DeleteWrites(w.objs, Id(o)));
      DeleteReaps(w, Id(o));
      var w' := Replay(w, deletes);
      if patches[0].delete.Done? {
        ForcedApplyIsStuck(m, w', o, patches[1..]);
        var (rest, ok) := SsaOutcome(m, w', o, false, false, patches[1..]);
        ReplayConcat(w, deletes, rest);
        assert SsaOutcome(m, w, o, false, false, patches) == (deletes + rest, ok);
      } else {
        assert SsaOutcome(m, w, o, false, false, patches) == (deletes, false);
        assert patches[0] in patches;
      }
    }
  }

  /** Once the object is gone it is created anew. */
  lemma Recreated(m: Settings, w: World, o: Object, p: Live, rest: seq<PatchAnswer>)
    requires Id(o) !in w.objs
    ensures var (writes, ok) := SsaOutcome(m, w, o, false, false, [Accepted(p)] + rest);
            && ok && EmbeddedLive(o, Replay(w, writes).objs) && !Replay(w, writes).objs[Id(o)].terminating
  {
    hide Embeds, Applied;
    var live := Applied(w.objs, o, p);
    AppliedEmbeds(w.objs, o, p);
    assert Replay(w, [Put(Id(o), live)]) == Replay(Do(w, Put(Id(o), live)), []);
  }

  /** Against such a server a forced apply gets through exactly when deleting
      removes the object, the deletion is acknowledged, and there is time for a
      second patch; the object is created anew then. */
  lemma ForcedApplyExactly(m: Settings, w: World, o: Object, patches: seq<PatchAnswer>)
    requires m.force && Id(o) in w.objs && Insists(w, o, patches)
    ensures var (writes, ok) := SsaOutcome(m, w, o, false, false, patches);
            && (ok <==> |patches| >= 2 && patches[0].delete.Done? && !Stays(w.objs[Id(o)]))
            && (ok ==> EmbeddedLive(o, Replay(w, writes).objs) && !Replay(w, writes).objs[Id(o)].terminating)
  {
    hide EmbeddedLive;
    if Stays(w.objs[Id(o)]) {
      ForcedApplyIsStuck(m, w, o, patches);
    } else if patches != [] && patches[0].delete.Done? {
      var deletes := DeleteWrites(w.objs, Id(o));
      DeleteReaps(w, Id(o));
      var w' := Replay(w, deletes);
      assert Id(o) !in w'.objs;
      var (rest, ok) := SsaOutcome(m, w', o, false, false, patches[1..]);
      assert SsaOutcome(m, w, o, false, false, patches) == (deletes + rest, ok);
      ReplayConcat(w, deletes, rest);
      if |patches| >= 2 {
        assert patches[1..] == [Accepted(patches[1].proposal)] + patches[2..];
        Recreated(m, w', o, patches[1].proposal, patches[2..]);
      }
    }
  }
}
