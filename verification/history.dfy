/** Whole histories of runs, each cut short anywhere, and of drift between
    them: what coverage, labels, status and finalizer keep to. */
module History {
  import opened Json
  import opened Objects
  import opened Snapshots
  import opened Cluster
  import opened Sorting
  import opened Manager
  import opened Applying
  import opened Pruning
  import opened StatusProtocol
  import opened Controller
  import opened Runs

  /** What a history leaves to remember: the namespaces and kinds that failed
      attempts may have touched, the manifests that were applied from, and the
      revisions with the snapshots stored for them. */
  datatype Record = Record(kinds: iset<(string, GVK)>, manifests: iset<seq<Object>>, stored: iset<(string, Snapshot)>)

  predicate InManifest(k: Key, objects: seq<Object>) {
    exists o :: o in objects && Id(o) == k
  }

  /** Owned, not exempt from pruning, and not on the way out. */
  predicate Tracked(c: Config, l: Live) {
    Matches(c.owner, l.labels) && !ShouldNotPrune(l) && !l.terminating
  }

  /** The checksum label names a manifest the object comes from. */
  ghost predicate Traced(c: Config, objs: map<Key, Live>, manifests: iset<seq<Object>>) {
    forall k :: k in objs && Matches(c.owner, objs[k].labels) ==> TracedAt(c, k, objs[k], manifests)
  }

  ghost predicate TracedAt(c: Config, k: Key, l: Live, manifests: iset<seq<Object>>) {
    CHECKSUM_LABEL in l.labels &&
    exists objects :: objects in manifests && l.labels[CHECKSUM_LABEL] == c.hash.manifest(objects)
      && InManifest(k, objects)
  }

  ghost predicate RecordedIn(s: Option<Snapshot>, k: Key) {
    s.Some? && Recorded(s.value, k.ns, k.gvk)
  }

  /** Every tracked object will be come across by the next pruning, or is of a
      kind known to be missed by it, or is one of `objects`. */
  ghost predicate Covered(c: Config, w: World, kinds: iset<(string, GVK)>, objects: seq<Object>) {
    forall k :: k in w.objs && Tracked(c, w.objs[k]) ==>
      RecordedIn(w.status.snapshot, k) || (k.ns, k.gvk) in kinds || InManifest(k, objects)
  }

  /** Ready only with the snapshot stored for the applied revision, which is
      the attempted one unless it is empty. */
  ghost predicate StatusSound(s: Status, stored: iset<(string, Snapshot)>) {
    s.ready == Some(IsTrue) ==>
      && s.snapshot.Some? && (s.lastAppliedRevision, s.snapshot.value) in stored
      && (s.lastAppliedRevision != "" ==> s.lastAttemptedRevision == s.lastAppliedRevision)
  }

  /** Nothing is owned before the finalizer is in place. */
  predicate Guarded(c: Config, w: World) {
    w.finalizer.Missing? ==> forall k :: k in w.objs ==> !Matches(c.owner, w.objs[k].labels)
  }

  ghost predicate Sound(c: Config, w: World, rec: Record) {
    && Traced(c, w.objs, rec.manifests) && Guarded(c, w)
    && Covered(c, w, rec.kinds, []) && StatusSound(w.status, rec.stored)
  }

  // ------------------------------------------------------------------ one run

  /** The manifest of the run and those on record have different checksums. */
  ghost predicate NoCollision(c: Config, r: Run, rec: Record) {
    r.build.Built? ==> Injective(c.hash.manifest, rec.manifests + iset{r.build.objects})
  }

  ghost function Slots(objects: seq<Object>): iset<(string, GVK)> {
    iset s | s in KindsOf(objects)
  }

  ghost function RecordedSlots(s: Option<Snapshot>): iset<(string, GVK)> {
    iset s': (string, GVK) | s.Some? && Recorded(s.value, s'.0, s'.1)
  }

  /** The apply of the run has begun where it is cut short. */
  predicate Started(t: Trace, cut: nat) {
    |t.begin| < cut && t.apply != []
  }

  /** The manifest whose objects may have been written by then. */
  function AppliedFrom(r: Run, t: Trace, cut: nat): seq<Object> {
    if Started(t, cut) then Touchable(r, t) else []
  }

  /** The kinds pruning may miss after a run cut short: a failed attempt adds
      those of its manifest. Storing a snapshot takes away those of the new
      one, and, of an old one, those it pruned or else adds them. */
  ghost function NextKinds(r: Run, w: World, t: Trace, cut: nat, kinds: iset<(string, GVK)>): iset<(string, GVK)> {
    if Stores(t) && cut > |Body(t)| && r.build.Built? then
      (if r.spec.prune then kinds - RecordedSlots(w.status.snapshot) else kinds + RecordedSlots(w.status.snapshot))
      - Slots(r.build.objects)
    else kinds + Slots(AppliedFrom(r, t, cut))
  }

  ghost function NextRecord(c: Config, r: Run, w: World, t: Trace, cut: nat, rec: Record): Record {
    Record(
      NextKinds(r, w, t, cut, rec.kinds),
      if AppliedFrom(r, t, cut) != [] then rec.manifests + iset{r.build.objects} else rec.manifests,
      if Stores(t) && cut > |Body(t)| && r.build.Built? then
        rec.stored + iset{(r.revision, SnapshotOf(r.build.objects, c.hash.manifest))}
      else rec.stored)
  }

  ghost function Keeping(c: Config, manifests: iset<seq<Object>>, kinds: iset<(string, GVK)>, stored: iset<(string,
                         Snapshot)>, objects: seq<Object>): World -> bool {
    (w: World) => Traced(c, w.objs, manifests) && Guarded(c, w) && Covered(c, w, kinds, objects)
      && StatusSound(w.status, stored)
  }

  /** The owner and checksum labels of a stamped object. */
  lemma StampedLabels(m: Settings, checksum: string, o: Object, l: Live)
    requires Embeds(Stamp(m, checksum, o), l)
    ensures Matches(m.owner, l.labels) && CHECKSUM_LABEL in l.labels && l.labels[CHECKSUM_LABEL] == checksum
  {
    var s := Stamp(m, checksum, o);
    assert NAME_LABEL in s.labels && NAMESPACE_LABEL in s.labels && CHECKSUM_LABEL in s.labels;
  }

  /** A lawful touch writes an object of the manifest, stamped; or it marks or
      removes a live one. */
  lemma TouchedObject(c: Config, r: Run, objects: seq<Object>, w: World, x: Write)
    requires LawfulTouch(c, r, objects, w, x)
    ensures w.finalizer.Registered? && (x.Put? || x.Remove?)
    ensures x.Put? ==>
              || (x.key in w.objs && x.live == w.objs[x.key].(terminating := true))
              || (InManifest(x.key, objects) && Matches(c.owner, x.live.labels)
                  && CHECKSUM_LABEL in x.live.labels && x.live.labels[CHECKSUM_LABEL] == Checksum(c, r))
  {
    var m, sum := SettingsOf(c, r.spec), Checksum(c, r);
    if x.Put? && ApplyRule(m, sum, objects)(w, x) {
      var o :| o in objects && WritesObject(m, sum, o, w.objs, x);
      if Embeds(Stamp(m, sum, o), x.live) {
        StampedLabels(m, sum, o, x.live);
      }
    }
  }

  lemma NotInNothing(k: Key)
    ensures !InManifest(k, [])
  {
  }

  lemma CoveredWithMore(c: Config, w: World, kinds: iset<(string, GVK)>, objects: seq<Object>)
    requires Covered(c, w, kinds, [])
    ensures Covered(c, w, kinds, objects)
  {
  }

  lemma TracedTo(c: Config, k: Key, l: Live, manifests: iset<seq<Object>>, objects: seq<Object>)
    requires InManifest(k, objects) && objects in manifests
    requires CHECKSUM_LABEL in l.labels && l.labels[CHECKSUM_LABEL] == c.hash.manifest(objects)
    ensures TracedAt(c, k, l, manifests)
  {
  }

  lemma TracedAfter(c: Config, w: World, x: Write, manifests: iset<seq<Object>>)
    requires Traced(c, w.objs, manifests) && (x.Put? || x.Remove?)
    requires x.Put? ==>
              (x.key in w.objs && x.live == w.objs[x.key].(terminating := true))
                || TracedAt(c, x.key, x.live, manifests)
    ensures Traced(c, Do(w, x).objs, manifests)
  {
    hide Matches, InManifest;
  }

  lemma CoveredAfter(c: Config, w: World, x: Write, kinds: iset<(string, GVK)>, objects: seq<Object>)
    requires Covered(c, w, kinds, objects) && (x.Put? || x.Remove?)
    requires x.Put? ==> x.live.terminating || InManifest(x.key, objects)
    ensures Covered(c, Do(w, x), kinds, objects)
  {
    hide Matches, ShouldNotPrune, InManifest, RecordedIn;
  }

  lemma TouchKeeps(c: Config, r: Run, objects: seq<Object>, w: World, x: Write,
                   manifests: iset<seq<Object>>, kinds: iset<(string, GVK)>, stored: iset<(string, Snapshot)>)
    requires LawfulTouch(c, r, objects, w, x) && Keeping(c, manifests, kinds, stored, objects)(w)
    requires objects != [] ==> objects in manifests && Checksum(c, r) == c.hash.manifest(objects)
    ensures Keeping(c, manifests, kinds, stored, objects)(Do(w, x))
  {
    hide LawfulTouch, Matches, InManifest, Traced, TracedAt, Covered;
    TouchedObject(c, r, objects, w, x);
    if x.Put? && !(x.key in w.objs && x.live == w.objs[x.key].(terminating := true)) {
      NotInNothing(x.key);
      TracedTo(c, x.key, x.live, manifests, objects);
    }
    TracedAfter(c, w, x, manifests);
    CoveredAfter(c, w, x, kinds, objects);
  }

  lemma BodyKeeps(c: Config, r: Run, objects: seq<Object>, w: World, x: Write,
                  manifests: iset<seq<Object>>, kinds: iset<(string, GVK)>, stored: iset<(string, Snapshot)>)
    requires BodyRule(c, r, objects)(w, x) && Keeping(c, manifests, kinds, stored, objects)(w)
    requires objects != [] ==> objects in manifests && Checksum(c, r) == c.hash.manifest(objects)
    ensures Keeping(c, manifests, kinds, stored, objects)(Do(w, x))
  {
    hide LawfulTouch, TracedAt, RecordedIn, Tracked, InManifest, LawfulSave;
    if x.Put? || x.Remove? {
      TouchKeeps(c, r, objects, w, x, manifests, kinds, stored);
    }
  }

  lemma LogKeeps(c: Config, r: Run, objects: seq<Object>, w: World, xs: seq<Write>,
                 manifests: iset<seq<Object>>, kinds: iset<(string, GVK)>, stored: iset<(string, Snapshot)>)
    requires Steps(w, xs, BodyRule(c, r, objects)) && Keeping(c, manifests, kinds, stored, objects)(w)
    requires objects != [] ==> objects in manifests && Checksum(c, r) == c.hash.manifest(objects)
    ensures Always(w, xs, Keeping(c, manifests, kinds, stored, objects))
  {
    hide BodyRule, Keeping;
    var rule, inv := BodyRule(c, r, objects), Keeping(c, manifests, kinds, stored, objects);
    forall v, x | inv(v) && rule(v, x) ensures inv(Do(v, x)) {
      BodyKeeps(c, r, objects, v, x, manifests, kinds, stored);
    }
    LawfulLogKeeps(w, xs, rule, inv);
  }

  /** A run that writes objects of its manifest stamps them with its checksum. */
  lemma TouchableChecksum(c: Config, r: Run, w: World, t: Trace)
    requires ValidRun(r) && LegalRun(c, r, w, t) && Touchable(r, t) != []
    ensures r.build.Built? && Touchable(r, t) == r.build.objects && !r.spec.deleting
            && Checksum(c, r) == c.hash.manifest(Touchable(r, t))
  {
    hide LegalReconciliation;
  }

  /** Cut short before its body is complete, a run adds to the record what it
      has begun to apply. */
  lemma EarlyCutKeeps(c: Config, r: Run, w: World, t: Trace, cut: nat, rec: Record)
    requires ValidRun(r) && LegalRun(c, r, w, t) && Sound(c, w, rec) && cut <= |Body(t)|
    ensures var objects := AppliedFrom(r, t, cut);
            var manifests := if objects != [] then rec.manifests + iset{objects} else rec.manifests;
            Keeping(c, manifests, rec.kinds, rec.stored, objects)(Replay(w, All(t)[..cut]))
  {
    hide BodyRule, LegalRun, Steps, TracedAt, Tracked, InManifest, RecordedIn;
    var objects := AppliedFrom(r, t, cut);
    var manifests := if objects != [] then rec.manifests + iset{objects} else rec.manifests;
    MoreManifests(c, w.objs, rec.manifests, manifests);
    var keeping := Keeping(c, manifests, rec.kinds, rec.stored, objects);
    CoveredWithMore(c, w, rec.kinds, objects);
    assert keeping(w);
    if Started(t, cut) || t.apply == [] {
      if objects != [] {
        TouchableChecksum(c, r, w, t);
      }
      RunObeys(c, r, w, t);
      BodyObeys(c, r, Touchable(r, t), w, t);
      LogKeeps(c, r, objects, w, Body(t), manifests, rec.kinds, rec.stored);
      assert All(t)[..cut] == Body(t)[..cut];
      assert keeping(Replay(w, Body(t)[..cut]));
    } else {
      BeginObeys(c, r, objects, w, t);
      LogKeeps(c, r, objects, w, t.begin, manifests, rec.kinds, rec.stored);
      assert All(t)[..cut] == t.begin[..cut];
      assert keeping(Replay(w, t.begin[..cut]));
    }
  }

  lemma MoreManifests(c: Config, objs: map<Key, Live>, manifests: iset<seq<Object>>, more: iset<seq<Object>>)
    requires Traced(c, objs, manifests) && forall objects :: objects in manifests ==> objects in more
    ensures Traced(c, objs, more)
  {
  }

  /** Objects of a manifest are of its kinds. */
  lemma ManifestKinds(k: Key, objects: seq<Object>)
    requires InManifest(k, objects)
    ensures (k.ns, k.gvk) in KindsOf(objects)
  {
    var o :| o in objects && Id(o) == k;
    assert (o.ns, Gvk(o)) in KindsOf(objects);
  }

  lemma CoveredByKinds(c: Config, w: World, kinds: iset<(string, GVK)>, objects: seq<Object>)
    requires Covered(c, w, kinds, objects)
    ensures Covered(c, w, kinds + Slots(objects), [])
  {
    hide RecordedIn, Tracked, KindsOf;
    forall k | k in w.objs && Tracked(c, w.objs[k])
      ensures RecordedIn(w.status.snapshot, k) || (k.ns, k.gvk) in kinds + Slots(objects)
    {
      if InManifest(k, objects) {
        ManifestKinds(k, objects);
      }
    }
  }

  // ------------------------------------------------------- storing a snapshot

  /** The snapshot of a manifest covers the manifest's kinds. */
  lemma ManifestRecorded(c: Config, objects: seq<Object>, k: Key)
    requires (forall o :: o in objects ==> HasKind(o)) && (k.ns, k.gvk) in KindsOf(objects)
    ensures RecordedIn(Some(SnapshotOf(objects, c.hash.manifest)), k)
  {
    SnapshotRecordsExactly(objects, c.hash.manifest, k.ns, k.gvk);
  }

  /** After a successful pruning, whatever it came across and left, tracked, is
      an object of the new manifest. */
  lemma SurvivorInManifest(c: Config, r: Run, w: World, answers: PruneAnswers, manifests: iset<seq<Object>>, k: Key)
    requires r.build.Built? && !r.spec.deleting && Injective(c.hash.manifest, manifests + iset{r.build.objects})
    requires CollectionSucceeds(SettingsOf(c, r.spec), Checksum(c, r), w, answers)
    requires var w' := Collected(SettingsOf(c, r.spec), Checksum(c, r), w, answers);
             && Traced(c, w'.objs, manifests) && k in w'.objs && Tracked(c, w'.objs[k])
               && RecordedIn(w.status.snapshot, k)
    ensures InManifest(k, r.build.objects)
  {
    hide Recorded, PruneSucceeds, Pruned;
    var m, sum := SettingsOf(c, r.spec), Checksum(c, r);
    var l := Collected(m, sum, w, answers).objs[k];
    SuccessfulPruneIsComplete(m, sum, w.objs, answers, w.status.snapshot.value, k);
    assert TracedAt(c, k, l, manifests);
    assert l.labels[CHECKSUM_LABEL] == sum;
  }

  /** What is tracked when an accomplished run stores its snapshot. */
  lemma AccomplishedCovers(c: Config, r: Run, w: World, t: Trace, rec: Record, k: Key)
    requires NoCollision(c, r, rec) && ValidRun(r) && LegalRun(c, r, w, t) && Stores(t) && Sound(c, w, rec)
    requires k in Cleaned(w, t).objs && Tracked(c, Cleaned(w, t).objs[k])
    ensures r.build.Built?
    ensures || InManifest(k, r.build.objects)
            || ((k.ns, k.gvk) in rec.kinds && !(r.spec.prune && RecordedIn(w.status.snapshot, k)))
            || (!r.spec.prune && RecordedIn(w.status.snapshot, k))
  {
    hide LegalRun, Tracked, RecordedIn, InManifest, TracedAt, Matches, CollectionSucceeds, Collected;
    hide Rehearsal, Performance, LastPatches, Steps;
    StoredMeansAccomplished(c, r, w, t);
    var n := |Body(t)|;
    CleanedBody(w, t);
    assert All(t)[..n] == Body(t);
    EarlyCutKeeps(c, r, w, t, n, rec);
    var objects := AppliedFrom(r, t, n);
    assert objects == [] || objects == r.build.objects;
    assert Cleaned(w, t).status.snapshot == w.status.snapshot by {
      RunObeys(c, r, w, t);
      BodyKeepsSnapshot(c, r, w, t);
      assert SnapshotIs(w.status.snapshot)(Replay(w, Body(t)[..n]));
      assert Body(t)[..n] == Body(t);
    }
    if r.spec.prune && RecordedIn(w.status.snapshot, k) {
      SurvivorInManifest(c, r, Performed(w, t), r.prune,
                         if objects != [] then rec.manifests + iset{objects} else rec.manifests, k);
    } else if InManifest(k, objects) {
      NotInNothing(k);
    }
  }

  /** Wherever a run of a manifest with well-formed kinds is cut short, the
      record accounts for all it leaves. */
  lemma RunKeeps(c: Config, r: Run, w: World, t: Trace, cut: nat, rec: Record)
    requires NoCollision(c, r, rec) && ValidRun(r) && LegalRun(c, r, w, t) && Sound(c, w, rec) && cut <= |All(t)|
    requires r.build.Built? ==> forall o :: o in r.build.objects ==> HasKind(o)
    ensures Sound(c, Replay(w, All(t)[..cut]), NextRecord(c, r, w, t, cut, rec))
  {
    hide LegalRun, Tracked, RecordedIn, TracedAt, Matches, Steps, Recorded, KindsOf;
    if Stores(t) && cut > |Body(t)| {
      StoredCutKeeps(c, r, w, t, cut, rec);
    } else {
      EarlyCutKeeps(c, r, w, t, cut, rec);
      if AppliedFrom(r, t, cut) != [] {
        TouchableChecksum(c, r, w, t);
      }
      CoveredByKinds(c, Replay(w, All(t)[..cut]), rec.kinds, AppliedFrom(r, t, cut));
    }
  }

  lemma StoredCutKeeps(c: Config, r: Run, w: World, t: Trace, cut: nat, rec: Record)
    requires NoCollision(c, r, rec) && ValidRun(r) && LegalRun(c, r, w, t) && Sound(c, w, rec)
    requires Stores(t) && |Body(t)| < cut <= |All(t)|
    requires r.build.Built? ==> forall o :: o in r.build.objects ==> HasKind(o)
    ensures Sound(c, Replay(w, All(t)[..cut]), NextRecord(c, r, w, t, cut, rec))
  {
    hide LegalRun, Tracked, RecordedIn, TracedAt, Matches, Steps, Recorded, KindsOf, InManifest, Rehearsal;
    hide Performance, Collected, CollectionSucceeds, LastPatches, SnapshotOf;
    StoredMeansAccomplished(c, r, w, t);
    StoredCut(c, r, w, t, cut);
    CleanedBody(w, t);
    EarlyCutKeeps(c, r, w, t, |Body(t)|, rec);
    assert All(t)[..|Body(t)|] == Body(t);
    var w' := Replay(w, All(t)[..cut]);
    var next := NextRecord(c, r, w, t, cut, rec);
    assert AppliedFrom(r, t, cut) == AppliedFrom(r, t, |Body(t)|);
    forall k | k in w'.objs && Tracked(c, w'.objs[k])
      ensures RecordedIn(w'.status.snapshot, k) || (k.ns, k.gvk) in next.kinds
    {
      StoredCovers(c, r, w, t, cut, rec, k);
    }
    StoredStatusSound(c, r, w, t, cut, rec.stored);
  }

  lemma StoredCovers(c: Config, r: Run, w: World, t: Trace, cut: nat, rec: Record, k: Key)
    requires NoCollision(c, r, rec) && ValidRun(r) && LegalRun(c, r, w, t) && Sound(c, w, rec)
    requires Stores(t) && |Body(t)| < cut <= |All(t)|
    requires r.build.Built? ==> forall o :: o in r.build.objects ==> HasKind(o)
    requires k in Cleaned(w, t).objs && Tracked(c, Cleaned(w, t).objs[k])
    ensures r.build.Built?
    ensures RecordedIn(Some(SnapshotOf(r.build.objects, c.hash.manifest)), k)
            || (k.ns, k.gvk) in NextKinds(r, w, t, cut, rec.kinds)
  {
    hide LegalRun, Tracked, Recorded, KindsOf, InManifest, SnapshotOf, Sound, Cleaned, Body;
    AccomplishedCovers(c, r, w, t, rec, k);
    if InManifest(k, r.build.objects) {
      ManifestKinds(k, r.build.objects);
    }
    if (k.ns, k.gvk) in KindsOf(r.build.objects) {
      ManifestRecorded(c, r.build.objects, k);
    }
  }

  /** Once the snapshot is stored, the status is ready with it or not at all. */
  lemma StoredStatusSound(c: Config, r: Run, w: World, t: Trace, cut: nat, stored: iset<(string, Snapshot)>)
    requires ValidRun(r) && LegalRun(c, r, w, t) && cut <= |All(t)| && r.build.Built? && StatusSound(w.status, stored)
    ensures StatusSound(Replay(w, All(t)[..cut]).status,
                        stored + iset{(r.revision, SnapshotOf(r.build.objects, c.hash.manifest))})
  {
    hide LegalRun, Steps, LawfulTouch, SnapshotOf, Body;
    var objects, more := Touchable(r, t), stored + iset{(r.revision, SnapshotOf(r.build.objects, c.hash.manifest))};
    var inv := (v: World) => StatusSound(v.status, more);
    RunObeys(c, r, w, t);
    RunSteps(c, r, w, t);
    forall v, x | inv(v) && RunRule(c, r, objects)(v, x) ensures inv(Do(v, x)) {
    }
    LawfulLogKeeps(w, All(t), RunRule(c, r, objects), inv);
    assert inv(Replay(w, All(t)[..cut]));
  }

  /** The status after both last patches have been stored. */
  lemma LastStatus(c: Config, r: Run, w: World, t: Trace)
    requires ValidRun(r) && LegalRun(c, r, w, t) && Stores(t) && r.first.Done? && r.second.Done?
    ensures r.build.Built?
    ensures Replay(w, All(t)).status
         == Settled(Progressing(w.status), r.spec, t.exit.Healthy?, SnapshotOf(r.build.objects, c.hash.manifest),
                    r.revision)
  {
    hide LegalReconciliation, SnapshotOf, HalfSettled, Settled, Progressing, WithReadiness;
    StoredMeansAccomplished(c, r, w, t);
    ProgressReported(c, r, w, t);
    var w3, snapshot, up := Cleaned(w, t), SnapshotOf(r.build.objects, c.hash.manifest), t.exit.Healthy?;
    var half := HalfSettled(w3.status, r.spec, up, snapshot, r.revision);
    var whole := Settled(w3.status, r.spec, up, snapshot, r.revision);
    CollectedKeepsStatus(SettingsOf(c, r.spec), Checksum(c, r), Performed(w, t), r.prune);
    CleanedBody(w, t);
    ReplayConcat(w, Body(t), t.finish);
    assert t.finish == [Save(half)] + [Save(whole)];
    ReplayConcat(w3, [Save(half)], [Save(whole)]);
    OneStep(w3, Save(half), (v: World, x: Write) => true);
    OneStep(Do(w3, Save(half)), Save(whole), (v: World, x: Write) => true);
  }

  lemma ProgressReported(c: Config, r: Run, w: World, t: Trace)
    requires ValidRun(r) && LegalRun(c, r, w, t) && Stores(t)
    ensures Begun(w, t).status == Progressing(w.status)
  {
    hide LegalReconciliation, WithReadiness;
    BeginningObeys(c, r, [], w);
  }

  /** A run that reports ready leaves its revision applied; it is the attempted
      one exactly when it is not empty, or none was attempted before. */
  lemma ReadyRevisionsAgree(c: Config, r: Run, w: World, t: Trace)
    requires ValidRun(r) && LegalRun(c, r, w, t) && t.exit.Healthy? && r.first.Done? && r.second.Done?
    ensures r.build.Built?
    ensures var s := Replay(w, All(t)).status;
            && s.ready == Some(IsTrue) && s.healthy == (if r.spec.healthChecks then Some(IsTrue) else None)
            && s.lastAppliedRevision == r.revision && s.observedGeneration == r.spec.generation
            && s.snapshot == Some(SnapshotOf(r.build.objects, c.hash.manifest))
            && (s.lastAttemptedRevision == s.lastAppliedRevision <==>
                  r.revision != "" || w.status.lastAttemptedRevision == "")
  {
    hide LegalRun;
    LastStatus(c, r, w, t);
  }

  /** A run that ends at its health checks leaves its revision attempted, even
      an empty one, the applied one as it was, and its snapshot stored. */
  lemma UnhealthyRevisions(c: Config, r: Run, w: World, t: Trace)
    requires ValidRun(r) && LegalRun(c, r, w, t) && t.exit.Unhealthy? && r.first.Done? && r.second.Done?
    ensures r.build.Built?
    ensures var s := Replay(w, All(t)).status;
            && s.ready == Some(IsFalse) && s.healthy == (if r.spec.healthChecks then Some(IsFalse) else None)
            && s.lastAttemptedRevision == r.revision && s.lastAppliedRevision == w.status.lastAppliedRevision
            && s.observedGeneration == r.spec.generation
            && s.snapshot == Some(SnapshotOf(r.build.objects, c.hash.manifest))
  {
    hide LegalRun;
    LastStatus(c, r, w, t);
  }

  // ------------------------------------------------------------- convergence

  /** What carries the new labels outlives the pruning. */
  lemma CarriersOutlive(m: Settings, checksum: string, w: World, answers: PruneAnswers, k: Key)
    requires !m.deleting && Carries(m, checksum, w.objs, k)
    ensures Carries(m, checksum, Collected(m, checksum, w, answers).objs, k)
  {
    hide Pruned;
    assert CHECKSUM_LABEL in GcLabels(m.owner, checksum);
    if w.status.snapshot.Some? {
      SparedSurvives(m, checksum, w.objs, answers, w.status.snapshot.value, k);
    }
  }

  lemma PerformedCarries(c: Config, r: Run, w: World, o: Object)
    requires ValidRun(r) && r.build.Built? && !r.spec.deleting && LabelSound(c.diff) && o in r.build.objects
    requires Rehearsal(c, r, w).ok && Performance(c, r, w).ok
    ensures Carries(SettingsOf(c, r.spec), Checksum(c, r), Replay(w, Performance(c, r, w).writes).objs, Id(o))
  {
    hide Carries, OutcomeUpTo;
    var m, all := SettingsOf(c, r.spec), r.build.objects;
    var i :| 0 <= i < |all| && all[i] == o;
    if r.spec.validate && Rehearsal(c, r, w).changes == [] {
      ManifestWrites(m, w, all, Checksum(c, r), true, r.dry, |all|);
      ManifestCarries(m, w, all, Checksum(c, r), true, r.dry, |all|);
      NothingReplayed(w);
    } else {
      ManifestCarries(m, w, all, Checksum(c, r), false, r.wet, |all|);
    }
  }

  /** A run with pruning on that stores its snapshot leaves exactly the
      manifest: every object of it is there with its labels, and whatever else
      is tracked is of a kind that only failed attempts touched. */
  lemma Convergence(c: Config, r: Run, w: World, t: Trace, cut: nat, rec: Record)
    requires NoCollision(c, r, rec) && LabelSound(c.diff) && ValidRun(r) && LegalRun(c, r, w, t) && Sound(c, w, rec)
    requires r.spec.prune && Stores(t) && |Body(t)| < cut <= |All(t)|
    ensures r.build.Built?
    ensures var objs := Replay(w, All(t)[..cut]).objs;
            && (forall o :: o in r.build.objects ==> Carries(SettingsOf(c, r.spec), Checksum(c, r), objs, Id(o)))
            && (forall k :: k in objs && Tracked(c, objs[k]) ==>
                  InManifest(k, r.build.objects) || ((k.ns, k.gvk) in rec.kinds && !RecordedIn(w.status.snapshot, k)))
  {
    hide LegalRun, Tracked, RecordedIn, InManifest, Sound, Rehearsal, Performance, Collected;
    hide CollectionSucceeds, Carries, LastPatches, SnapshotOf;
    StoredMeansAccomplished(c, r, w, t);
    StoredCut(c, r, w, t, cut);
    var objs := Cleaned(w, t).objs;
    forall k | k in objs && Tracked(c, objs[k])
      ensures InManifest(k, r.build.objects) || ((k.ns, k.gvk) in rec.kinds && !RecordedIn(w.status.snapshot, k))
    {
      AccomplishedCovers(c, r, w, t, rec, k);
    }
    forall o | o in r.build.objects ensures Carries(SettingsOf(c, r.spec), Checksum(c, r), objs, Id(o)) {
      PerformedCarries(c, r, Begun(w, t), o);
      CarriersOutlive(SettingsOf(c, r.spec), Checksum(c, r), Performed(w, t), r.prune, Id(o));
    }
  }

  // ------------------------------------------------------------ the finalizer

  /** No object is touched, by applying or pruning, without the finalizer. */
  lemma TouchesAreGuarded(c: Config, r: Run, w: World, t: Trace, n: nat)
    requires ValidRun(r) && LegalRun(c, r, w, t) && n < |All(t)|
    requires All(t)[n].Put? || All(t)[n].Remove?
    ensures Replay(w, All(t)[..n]).finalizer.Registered?
  {
    hide LegalRun, Steps;
    RunObeys(c, r, w, t);
    RunSteps(c, r, w, t);
    StepAt(w, All(t), RunRule(c, r, Touchable(r, t)), n);
  }

  /** The finalizer is released by the very last write of a run that deletes;
      with pruning on and not suspended, only after it pruned without failure. */
  lemma ReleasedMeansPruned(c: Config, r: Run, w: World, t: Trace, cut: nat)
    requires ValidRun(r) && LegalRun(c, r, w, t) && cut <= |All(t)|
    requires !w.finalizer.Released? && Replay(w, All(t)[..cut]).finalizer.Released?
    ensures r.spec.deleting
    ensures r.spec.prune && !r.spec.suspend ==>
              var m, w1 := SettingsOf(c, r.spec), Begun(w, t);
              && CollectionSucceeds(m, "", w1, r.prune)
              && w1.objs == w.objs && w1.status == w.status
              && Replay(w, All(t)[..cut]).objs == Collected(m, "", w1, r.prune).objs
  {
    hide LegalReconciliation, PruneRule, CollectionSucceeds, Collected;
    if !r.spec.deleting {
      assert false by {
        NeverReleased(c, r, w, t, cut);
      }
    } else {
      RegisteringObeys(c, r, [], w);
      BodyBeforeRelease(c, r, w, t, cut);
      assert All(t)[..cut] == All(t);
    }
  }

  lemma NeverReleased(c: Config, r: Run, w: World, t: Trace, cut: nat)
    requires ValidRun(r) && LegalRun(c, r, w, t) && cut <= |All(t)| && !r.spec.deleting && !w.finalizer.Released?
    ensures !Replay(w, All(t)[..cut]).finalizer.Released?
  {
    hide LegalRun, Steps, LawfulTouch, LawfulSave;
    var inv := (v: World) => !v.finalizer.Released?;
    RunObeys(c, r, w, t);
    RunSteps(c, r, w, t);
    forall v, x | inv(v) && RunRule(c, r, Touchable(r, t))(v, x) ensures inv(Do(v, x)) {
    }
    LawfulLogKeeps(w, All(t), RunRule(c, r, Touchable(r, t)), inv);
    assert inv(Replay(w, All(t)[..cut]));
  }

  lemma {:induction false} KeptBy(w: World, xs: seq<Write>)
    requires DropFinalizer !in xs && !w.finalizer.Released?
    ensures !Replay(w, xs).finalizer.Released?
    decreases xs
  {
    if xs != [] {
      KeptBy(Do(w, xs[0]), xs[1..]);
    }
  }

  lemma {:induction false} PruningDropsNothing(m: Settings, checksum: string, w: World, xs: seq<Write>)
    requires Steps(w, xs, PruneRule(m, checksum))
    ensures DropFinalizer !in xs
    decreases xs
  {
    if xs != [] {
      PruningDropsNothing(m, checksum, Do(w, xs[0]), xs[1..]);
    }
  }

  lemma BodyBeforeRelease(c: Config, r: Run, w: World, t: Trace, cut: nat)
    requires ValidRun(r) && LegalRun(c, r, w, t) && cut <= |All(t)| && r.spec.deleting
    requires !w.finalizer.Released? && Replay(w, All(t)[..cut]).finalizer.Released?
    ensures Admitted(r, w) && LegalDeletion(c, r, Begun(w, t), t) && t.finish == [DropFinalizer] && cut == |All(t)|
    ensures Replay(w, All(t)).objs == Replay(Begun(w, t), t.prune).objs
  {
    hide LegalReconciliation, PruneRule, CollectionSucceeds, Collected, SettingsOf, WithReadiness, LastPatches;
    var body := t.begin + t.prune;
    assert DropFinalizer !in t.prune by {
      if t.prune != [] {
        PruningDropsNothing(SettingsOf(c, r.spec), "", Begun(w, t), t.prune);
      }
    }
    assert DropFinalizer !in body;
    assert All(t) == body + t.finish;
    if cut <= |body| {
      assert All(t)[..cut] == body[..cut];
      KeptBy(w, body[..cut]);
      assert false;
    } else {
      assert t.finish == [DropFinalizer] && All(t)[..cut] == All(t);
      ReplayConcat(w, body, t.finish);
      ReplayConcat(w, t.begin, t.prune);
      OneStep(Replay(w, body), DropFinalizer, (v: World, x: Write) => true);
    }
  }

  /** When the finalizer is released with pruning on and not suspended, all
      that was covered is gone or going. */
  lemma ReleaseIsClean(c: Config, r: Run, w: World, t: Trace, cut: nat, rec: Record)
    requires ValidRun(r) && LegalRun(c, r, w, t) && cut <= |All(t)| && Sound(c, w, rec)
    requires !w.finalizer.Released? && Replay(w, All(t)[..cut]).finalizer.Released?
    requires r.spec.prune && !r.spec.suspend
    ensures var objs := Replay(w, All(t)[..cut]).objs;
            forall k :: k in objs && Tracked(c, objs[k]) ==>
                (k.ns, k.gvk) in rec.kinds && !RecordedIn(w.status.snapshot, k)
  {
    hide LegalRun, PruneSucceeds, Pruned, Recorded;
    ReleasedMeansPruned(c, r, w, t, cut);
    var m, w1 := SettingsOf(c, r.spec), Begun(w, t);
    var objs := Collected(m, "", w1, r.prune).objs;
    forall k | k in objs && Tracked(c, objs[k])
      ensures (k.ns, k.gvk) in rec.kinds && !RecordedIn(w.status.snapshot, k)
    {
      if w.status.snapshot.Some? {
        SuccessfulPruneIsComplete(m, "", w.objs, r.prune, w.status.snapshot.value, k);
      }
    }
  }

  // ------------------------------------------------------------ whole histories

  datatype Event = Ran(run: Run, trace: Trace, cut: nat) | Drifted(objs: map<Key, Live>)

  /** Between runs objects may come, go, change and be marked for deletion; but
      nobody else hands out the owner labels, changes the checksum label beside
      them, takes an exemption back, or undoes a deletion. */
  ghost predicate Drift(c: Config, objs: map<Key, Live>, objs': map<Key, Live>) {
    forall k :: k in objs' && Matches(c.owner, objs'[k].labels) ==> k in objs && DriftAt(c, objs[k], objs'[k])
  }

  predicate DriftAt(c: Config, l: Live, l': Live) {
    && Matches(c.owner, l.labels)
    && (CHECKSUM_LABEL in l.labels ==>
          CHECKSUM_LABEL in l'.labels && l'.labels[CHECKSUM_LABEL] == l.labels[CHECKSUM_LABEL])
    && (ShouldNotPrune(l) ==> ShouldNotPrune(l')) && (l.terminating ==> l'.terminating)
  }

  ghost predicate LegalEvent(c: Config, w: World, e: Event) {
    match e
    case Ran(r, t, cut) =>
      && ValidRun(r) && LegalRun(c, r, w, t) && cut <= |All(t)|
      && (r.build.Built? ==> forall o :: o in r.build.objects ==> HasKind(o))
    case Drifted(objs) => Drift(c, w.objs, objs)
  }

  ghost function After(w: World, e: Event): World {
    match e
    case Ran(r, t, cut) => if cut <= |All(t)| then Replay(w, All(t)[..cut]) else w
    case Drifted(objs) => w.(objs := objs)
  }

  ghost function Remembered(c: Config, w: World, e: Event, rec: Record): Record {
    match e
    case Ran(r, t, cut) => NextRecord(c, r, w, t, cut, rec)
    case Drifted(_) => rec
  }

  ghost predicate LegalHistory(c: Config, w: World, es: seq<Event>)
    decreases es
  {
    es == [] || (LegalEvent(c, w, es[0]) && LegalHistory(c, After(w, es[0]), es[1..]))
  }

  ghost function Reached(c: Config, w: World, rec: Record, es: seq<Event>): (World, Record)
    decreases es
  {
    if es == [] then (w, rec) else Reached(c, After(w, es[0]), Remembered(c, w, es[0], rec), es[1..])
  }

  lemma DriftKeepsAll(c: Config, w: World, objs: map<Key, Live>, manifests: iset<seq<Object>>,
                      kinds: iset<(string, GVK)>, stored: iset<(string, Snapshot)>, objects: seq<Object>)
    requires Keeping(c, manifests, kinds, stored, objects)(w) && Drift(c, w.objs, objs)
    ensures Keeping(c, manifests, kinds, stored, objects)(w.(objs := objs))
  {
    hide Matches, ShouldNotPrune, RecordedIn, InManifest;
    forall k | k in objs && Matches(c.owner, objs[k].labels) ensures TracedAt(c, k, objs[k], manifests) {
      assert DriftAt(c, w.objs[k], objs[k]) && TracedAt(c, k, w.objs[k], manifests);
    }
  }

  lemma DriftKeeps(c: Config, w: World, objs: map<Key, Live>, rec: Record)
    requires Sound(c, w, rec) && Drift(c, w.objs, objs)
    ensures Sound(c, w.(objs := objs), rec)
  {
    hide Traced, Guarded, Covered, StatusSound, Drift;
    assert Keeping(c, rec.manifests, rec.kinds, rec.stored, [])(w);
    DriftKeepsAll(c, w, objs, rec.manifests, rec.kinds, rec.stored, []);
  }

  /** Before its first run a Konfiguration owns nothing. */
  lemma FreshIsSound(c: Config, w: World)
    requires w.status.ready != Some(IsTrue)
    requires forall k :: k in w.objs ==> !Matches(c.owner, w.objs[k].labels)
    ensures Sound(c, w, Record(iset{}, iset{}, iset{}))
  {
  }

  /** The manifests on record and of the runs to come. */
  ghost function Occurring(rec: Record, es: seq<Event>): iset<seq<Object>> {
    iset objects | objects in rec.manifests || exists e :: e in es && RunOf(e, objects)
  }

  predicate RunOf(e: Event, objects: seq<Object>) {
    e.Ran? && e.run.build == Built(objects)
  }

  lemma OccurringLater(c: Config, w: World, rec: Record, es: seq<Event>)
    requires es != [] && LegalEvent(c, w, es[0])
    ensures forall objects :: objects in Occurring(Remembered(c, w, es[0], rec), es[1..]) ==>
              objects in Occurring(rec, es)
  {
    hide LegalRun, NextKinds;
    forall e | e in es[1..] ensures e in es {
    }
    assert es[0].Ran? && es[0].run.build.Built? ==> RunOf(es[0], es[0].run.build.objects);
  }

  /** Over every history of runs, each cut short anywhere, and of drift, in which
      no two manifests collide, the record accounts for every tracked object,
      label, and ready status. */
  lemma {:induction false} HistoryKeeps(c: Config, w: World, rec: Record, es: seq<Event>)
    requires Sound(c, w, rec) && LegalHistory(c, w, es)
    requires Injective(c.hash.manifest, Occurring(rec, es))
    ensures var (w', rec') := Reached(c, w, rec, es); Sound(c, w', rec')
    decreases es
  {
    hide Sound, LegalRun, NextRecord, Drift, Occurring;
    if es != [] {
      match es[0] {
        case Ran(r, t, cut) =>
          FirstRunOccurs(rec, es);
          RunKeeps(c, r, w, t, cut, rec);
        case Drifted(objs) => DriftKeeps(c, w, objs, rec);
      }
      OccurringLater(c, w, rec, es);
      HistoryKeeps(c, After(w, es[0]), Remembered(c, w, es[0], rec), es[1..]);
    }
  }

  lemma FirstRunOccurs(rec: Record, es: seq<Event>)
    requires es != [] && es[0].Ran?
    ensures forall objects :: objects in rec.manifests || es[0].run.build == Built(objects) ==>
              objects in Occurring(rec, es)
  {
    forall objects | es[0].run.build == Built(objects) ensures objects in Occurring(rec, es) {
      assert RunOf(es[0], objects);
    }
  }

  // ------------------------------------------------------- what a failure leaves

  /** The record's kinds are needed: when the second object of a first manifest
      is refused, the first one is live and owned while no snapshot is stored. */
  lemma FailedApplyIsUnrecorded(c: Config, r: Run, w: World, t: Trace, a: Object, b: Object, p: Live)
    requires w.objs == map[] && w.finalizer.Registered? && w.status.snapshot.None?
    requires !r.spec.deleting && !r.spec.suspend && !r.spec.validate
    requires r.source.Fetched? && Dependencies.Open(r.dependencies) && r.progress.Done?
    requires r.build == Built([a, b]) && Id(a) != Id(b)
    requires r.wet == [Script(false, [Accepted(p)]), Script(false, [Refused(None)])] && |r.dry| == 2
    requires LegalRun(c, r, w, t)
    ensures var w' := Replay(w, All(t));
            && Id(a) in w'.objs && Matches(c.owner, w'.objs[Id(a)].labels)
            && !RecordedIn(w'.status.snapshot, Id(a))
  {
    hide LegalCleanup, ManifestOutcome, Matches, WithReadiness, BodyRule, Accomplished, SnapshotOf, LastPatches;
    hide Recorded;
    var m, w1 := SettingsOf(c, r.spec), Begun(w, t);
    BeginningObeys(c, r, [], w);
    FirstOfTwoApplied(m, w1, a, b, c.hash.manifest([a, b]), r.wet, p);
    assert t.exit.Unready? && t.prune == [] && t.apply == Performance(c, r, w1).writes;
    ReplayPhases(w, t);
    NothingReplayed(Performed(w, t));
    var status := WithReadiness(w1.status, r.spec, IsFalse, r.revision);
    assert forall x :: x in t.finish ==> x == Save(status);
    SavesOnly(Performed(w, t), t.finish, status.snapshot);
    NothingReplayed(Cleaned(w, t));
    SnapshotChangesLate(c, r, w, t, |All(t)|);
    assert All(t)[..|All(t)|] == All(t);
  }

  lemma NewObjectAccepted(m: Settings, w: World, o: Object, checksum: string, p: Live)
    requires Id(o) !in w.objs
    ensures var live := Applied(w.objs, Stamp(m, checksum, o), p);
            && ObjectOutcome(m, w, o, checksum, false, Script(false, [Accepted(p)]))
                == Outcome([Put(Id(o), live)], [Change(Id(o), Created)], true)
            && Matches(m.owner, live.labels)
  {
    hide Embeds, Matches, Applied;
    var s := Stamp(m, checksum, o);
    StampKeepsId(m, checksum, o);
    AppliedEmbeds(w.objs, s, p);
    StampedLabels(m, checksum, o, Applied(w.objs, s, p));
  }

  lemma NewObjectRefused(m: Settings, w: World, o: Object, checksum: string)
    requires Id(o) !in w.objs
    ensures ObjectOutcome(m, w, o, checksum, false, Script(false, [Refused(None)]))
         == Outcome([], [Change(Id(o), Failing)], false)
  {
  }

  lemma FirstOfTwoApplied(m: Settings, w: World, a: Object, b: Object, checksum: string, scripts: seq<Script>, p: Live)
    requires w.objs == map[] && Id(a) != Id(b)
    requires scripts == [Script(false, [Accepted(p)]), Script(false, [Refused(None)])]
    ensures var out := ManifestOutcome(m, w, [a, b], checksum, false, scripts);
            && !out.ok && Id(a) in Replay(w, out.writes).objs
            && Matches(m.owner, Replay(w, out.writes).objs[Id(a)].labels)
  {
    hide ObjectOutcome, Applied, Stamp, Matches;
    NothingReplayed(w);
    var first := OneMoreObject(m, w, [a, b], checksum, false, scripts, 0);
    NewObjectAccepted(m, w, a, checksum, p);
    OneStep(w, first.writes[0], (v: World, x: Write) => true);
    var here := Replay(w, first.writes);
    var second := OneMoreObject(m, w, [a, b], checksum, false, scripts, 1);
    NewObjectRefused(m, here, b, checksum);
    NothingReplayed(here);
  }
}
