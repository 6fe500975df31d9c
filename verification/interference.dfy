/** Runs among other writers: between any two requests of a run objects may
    drift, and pruning deletes by name what it has listed before. */
module Interference {
  import opened Json
  import opened Objects
  import opened Snapshots
  import opened Cluster
  import opened Sorting
  import opened Manager
  import opened Applying
  import opened Pruning
  import opened Controller
  import opened Runs
  import opened History
  import Isolation

  /** One request of a run that has an effect, or drift. A failed deletion may
      have landed, and counts as `!acked` then. */
  datatype Step =
    | Report(write: Write)
    | Touch(write: Write)
    | List(ns: string, g: GVK)
    | Delete(key: Key, acked: bool)
    | Store(status: Status)
    | Elsewhere(objs: map<Key, Live>)

  /** How far a run is: `swept` are the listings that succeeded, `found` what
      they showed to be doomed and is not deleted yet. */
  datatype Point = Point(
    w: World, touched: bool, pruning: bool, swept: set<(string, GVK)>, found: set<Key>, stored: bool)

  function Start(w: World): Point {
    Point(w, false, false, {}, {}, false)
  }

  ghost predicate AllSwept(s: Option<Snapshot>, swept: set<(string, GVK)>) {
    s.Some? ==> forall ns, g :: Lists(s.value, ns, g) ==> (ns, g) in swept
  }

  /** A write to the Konfiguration, but for storing a snapshot. */
  ghost predicate LawfulReport(r: Run, w: World, y: Write) {
    match y
    case Save(s) => EarlySave(r, w.status, s)
    case AddFinalizer => w.finalizer.Missing?
    case DropFinalizer => w.finalizer.Registered? && r.spec.deleting
    case _ => false
  }

  /** The apply comes before pruning, pruning before the new snapshot is stored;
      with pruning on, that takes all listings and deletions to have succeeded.
      Nothing here depends on what the run has read before, but for `found`. */
  ghost predicate Legal(c: Config, r: Run, p: Point, x: Step) {
    match x
    case Report(y) => LawfulReport(r, p.w, y)
    case Touch(y) =>
      && !p.pruning && !p.stored && p.w.finalizer.Registered? && r.build.Built? && !r.spec.deleting
      && ApplyRule(SettingsOf(c, r.spec), Checksum(c, r), r.build.objects)(p.w, y)
    case List(_, _) => p.w.finalizer.Registered? && !p.stored
    case Delete(k, _) => p.w.finalizer.Registered? && !p.stored && k in p.found
    case Store(s) =>
      && r.build.Built? && !r.spec.deleting
      && (r.spec.prune && !p.stored ==> AllSwept(p.w.status.snapshot, p.swept) && p.found == {})
      && LastSaves(r, p.w.status, s, SnapshotOf(r.build.objects, c.hash.manifest))
    case Elsewhere(objs) => Drift(c, p.w.objs, objs)
  }

  function Next(c: Config, r: Run, p: Point, x: Step): Point {
    match x
    case Report(y) => p.(w := Do(p.w, y))
    case Touch(y) => p.(w := Do(p.w, y), touched := true)
    case List(ns, g) =>
      p.(pruning := true, swept := p.swept + {(ns, g)},
         found := p.found + Isolation.Found(SettingsOf(c, r.spec), Checksum(c, r), p.w.objs, ns, g))
    case Delete(k, acked) =>
      p.(w := p.w.(objs := Reaped(p.w.objs, {k})), found := if acked then p.found - {k} else p.found)
    case Store(s) => p.(w := p.w.(status := s), stored := true)
    case Elsewhere(objs) => p.(w := p.w.(objs := objs))
  }

  ghost predicate AllLegal(c: Config, r: Run, p: Point, xs: seq<Step>)
    decreases xs
  {
    xs == [] || (Legal(c, r, p, xs[0]) && AllLegal(c, r, Next(c, r, p, xs[0]), xs[1..]))
  }

  function Walk(c: Config, r: Run, p: Point, xs: seq<Step>): Point
    decreases xs
  {
    if xs == [] then p else Walk(c, r, Next(c, r, p, xs[0]), xs[1..])
  }

  // -------------------------------------------------------------- what runs keep

  /** The manifest objects come from, once the apply has written. */
  function Written(r: Run, p: Point): seq<Object> {
    if p.touched && r.build.Built? then r.build.objects else []
  }

  ghost function Manifests(r: Run, p: Point, rec: Record): iset<seq<Object>> {
    if p.touched && r.build.Built? then rec.manifests + iset{r.build.objects} else rec.manifests
  }

  /** The record at some point of a run that found the snapshot `earlier`. */
  ghost function RecordAt(c: Config, r: Run, earlier: Option<Snapshot>, p: Point, rec: Record): Record {
    if p.stored && r.build.Built? then
      Record(
        (if r.spec.prune then rec.kinds - RecordedSlots(earlier) else rec.kinds + RecordedSlots(earlier))
        - Slots(r.build.objects),
        Manifests(r, p, rec),
        rec.stored + iset{(r.revision, SnapshotOf(r.build.objects, c.hash.manifest))})
    else Record(rec.kinds + Slots(Written(r, p)), Manifests(r, p, rec), rec.stored)
  }

  predicate DoomedAt(m: Settings, checksum: string, objs: map<Key, Live>, k: Key) {
    k in objs && Doomed(m, objs[k], checksum)
  }

  /** What a listing showed is about to be deleted, or not doomed any more. */
  ghost predicate SweptSound(m: Settings, checksum: string, p: Point) {
    && (p.swept != {} ==> p.pruning)
    && forall s, k :: s in p.swept && InListing(k, s.0, s.1) && DoomedAt(m, checksum, p.w.objs, k) ==> k in p.found
  }

  lemma ReportKeeps(c: Config, r: Run, w: World, y: Write, manifests: iset<seq<Object>>, kinds: iset<(string, GVK)>,
                    stored: iset<(string, Snapshot)>, objects: seq<Object>)
    requires LawfulReport(r, w, y) && Keeping(c, manifests, kinds, stored, objects)(w)
    ensures Keeping(c, manifests, kinds, stored, objects)(Do(w, y))
    ensures Do(w, y).objs == w.objs && Do(w, y).status.snapshot == w.status.snapshot
  {
    hide Traced, RecordedIn, Tracked, InManifest;
  }

  ghost predicate Inv(c: Config, r: Run, earlier: Option<Snapshot>, rec: Record, p: Point) {
    if p.stored then
      && r.build.Built? && p.w.status.snapshot == Some(SnapshotOf(r.build.objects, c.hash.manifest))
      && Sound(c, p.w, RecordAt(c, r, earlier, p, rec))
    else
      && p.w.status.snapshot == earlier
      && Keeping(c, Manifests(r, p, rec), rec.kinds, rec.stored, Written(r, p))(p.w)
      && SweptSound(SettingsOf(c, r.spec), Checksum(c, r), p)
  }

  ghost predicate Ready(c: Config, r: Run, rec: Record) {
    && ValidRun(r) && NoCollision(c, r, rec)
    && (r.build.Built? ==> forall o :: o in r.build.objects ==> HasKind(o))
  }

  lemma ReportInv(c: Config, r: Run, earlier: Option<Snapshot>, rec: Record, p: Point, y: Write)
    requires Inv(c, r, earlier, rec, p) && Legal(c, r, p, Report(y))
    ensures Inv(c, r, earlier, rec, Next(c, r, p, Report(y)))
  {
    hide LawfulReport, Keeping, Traced, Covered, Guarded, StatusSound, Slots, RecordedSlots, SnapshotOf;
    var now := RecordAt(c, r, earlier, p, rec);
    if p.stored {
      SoundIsKeeping(c, p.w, now);
      ReportKeeps(c, r, p.w, y, now.manifests, now.kinds, now.stored, []);
      SoundIsKeeping(c, Do(p.w, y), now);
    } else {
      ReportKeeps(c, r, p.w, y, Manifests(r, p, rec), rec.kinds, rec.stored, Written(r, p));
    }
  }

  lemma SoundIsKeeping(c: Config, w: World, rec: Record)
    ensures Sound(c, w, rec) <==> Keeping(c, rec.manifests, rec.kinds, rec.stored, [])(w)
  {
    hide Traced, Covered, Guarded, StatusSound;
  }

  lemma TouchInv(c: Config, r: Run, earlier: Option<Snapshot>, rec: Record, p: Point, y: Write)
    requires Inv(c, r, earlier, rec, p) && Legal(c, r, p, Touch(y))
    ensures Inv(c, r, earlier, rec, Next(c, r, p, Touch(y)))
  {
    hide Traced, Covered, Guarded, StatusSound, ApplyRule, PruneRule;
    var objects := r.build.objects;
    var manifests := rec.manifests + iset{objects};
    MoreManifests(c, p.w.objs, Manifests(r, p, rec), manifests);
    if !p.touched {
      CoveredWithMore(c, p.w, rec.kinds, objects);
    }
    TouchLeavesKonfiguration(SettingsOf(c, r.spec), Checksum(c, r), objects, p.w, y);
    TouchKeeps(c, r, objects, p.w, y, manifests, rec.kinds, rec.stored);
  }

  /** Drift dooms nothing that was not doomed. */
  lemma DriftDoomsNothing(c: Config, m: Settings, checksum: string, objs: map<Key, Live>, objs': map<Key, Live>, k: Key)
    requires m.owner == c.owner && Drift(c, objs, objs') && DoomedAt(m, checksum, objs', k)
    ensures DoomedAt(m, checksum, objs, k)
  {
    hide Matches, ShouldNotPrune;
    assert DriftAt(c, objs[k], objs'[k]);
  }

  lemma DriftInv(c: Config, r: Run, earlier: Option<Snapshot>, rec: Record, p: Point, objs: map<Key, Live>)
    requires Inv(c, r, earlier, rec, p) && Drift(c, p.w.objs, objs)
    ensures Inv(c, r, earlier, rec, p.(w := p.w.(objs := objs)))
  {
    hide Traced, Covered, Guarded, StatusSound, Drift, DoomedAt, InListing;
    var m, sum := SettingsOf(c, r.spec), Checksum(c, r);
    if p.stored {
      DriftKeeps(c, p.w, objs, RecordAt(c, r, earlier, p, rec));
    } else {
      DriftKeepsAll(c, p.w, objs, Manifests(r, p, rec), rec.kinds, rec.stored, Written(r, p));
      forall k | DoomedAt(m, sum, objs, k) ensures DoomedAt(m, sum, p.w.objs, k) {
        DriftDoomsNothing(c, m, sum, p.w.objs, objs, k);
      }
    }
  }

  lemma ListInv(c: Config, r: Run, earlier: Option<Snapshot>, rec: Record, p: Point, ns: string, g: GVK)
    requires Inv(c, r, earlier, rec, p) && Legal(c, r, p, List(ns, g))
    ensures Inv(c, r, earlier, rec, Next(c, r, p, List(ns, g)))
  {
    hide Keeping, Doomed;
  }

  /** Deleting is drift, and leaves nothing doomed there. */
  lemma DeletionDrifts(c: Config, m: Settings, checksum: string, objs: map<Key, Live>, k: Key)
    ensures Drift(c, objs, Reaped(objs, {k})) && !DoomedAt(m, checksum, Reaped(objs, {k}), k)
  {
    hide Matches, IsOrphaned;
    var objs' := Reaped(objs, {k});
    forall j | j in objs' && Matches(c.owner, objs'[j].labels) ensures j in objs && DriftAt(c, objs[j], objs'[j]) {
    }
  }

  lemma DeleteInv(c: Config, r: Run, earlier: Option<Snapshot>, rec: Record, p: Point, k: Key, acked: bool)
    requires Inv(c, r, earlier, rec, p) && Legal(c, r, p, Delete(k, acked))
    ensures Inv(c, r, earlier, rec, Next(c, r, p, Delete(k, acked)))
  {
    hide Keeping, Drift, DoomedAt, Reaped, InListing;
    DeletionDrifts(c, SettingsOf(c, r.spec), Checksum(c, r), p.w.objs, k);
    DriftInv(c, r, earlier, rec, p, Reaped(p.w.objs, {k}));
  }

  /** With everything swept and deleted, what is tracked and recorded is in the
      new manifest. */
  lemma SweptInManifest(c: Config, r: Run, rec: Record, p: Point, last: Snapshot, k: Key)
    requires r.build.Built? && !r.spec.deleting && NoCollision(c, r, rec)
    requires SweptSound(SettingsOf(c, r.spec), Checksum(c, r), p) && p.found == {} && AllSwept(Some(last), p.swept)
    requires Traced(c, p.w.objs, Manifests(r, p, rec)) && k in p.w.objs && Tracked(c, p.w.objs[k])
    requires Recorded(last, k.ns, k.gvk)
    ensures InManifest(k, r.build.objects)
  {
    hide Lists, Matches, ShouldNotPrune, InManifest;
    var ns := if Lists(last, "", k.gvk) then "" else k.ns;
    assert Lists(last, ns, k.gvk);
    assert (ns, k.gvk) in p.swept && InListing(k, ns, k.gvk);
    assert !DoomedAt(SettingsOf(c, r.spec), Checksum(c, r), p.w.objs, k);
    assert TracedAt(c, k, p.w.objs[k], Manifests(r, p, rec));
  }

  /** What is tracked when the snapshot is stored. */
  lemma StoreLeaves(c: Config, r: Run, earlier: Option<Snapshot>, rec: Record, p: Point, k: Key)
    requires NoCollision(c, r, rec) && Inv(c, r, earlier, rec, p) && !p.stored && r.build.Built? && !r.spec.deleting
    requires r.spec.prune ==> AllSwept(earlier, p.swept) && p.found == {}
    requires k in p.w.objs && Tracked(c, p.w.objs[k])
    ensures || InManifest(k, r.build.objects)
            || ((k.ns, k.gvk) in rec.kinds && !(r.spec.prune && RecordedIn(earlier, k)))
            || (!r.spec.prune && RecordedIn(earlier, k))
  {
    hide Tracked, InManifest, Recorded, SweptSound, Traced, NoCollision, AllSwept;
    if InManifest(k, Written(r, p)) {
      NotInNothing(k);
    } else if r.spec.prune && RecordedIn(earlier, k) {
      SweptInManifest(c, r, rec, p, earlier.value, k);
    }
  }

  lemma StoreCovers(c: Config, r: Run, earlier: Option<Snapshot>, rec: Record, p: Point, k: Key)
    requires Ready(c, r, rec) && Inv(c, r, earlier, rec, p) && !p.stored && r.build.Built? && !r.spec.deleting
    requires r.spec.prune ==> AllSwept(earlier, p.swept) && p.found == {}
    requires k in p.w.objs && Tracked(c, p.w.objs[k])
    ensures RecordedIn(Some(SnapshotOf(r.build.objects, c.hash.manifest)), k)
            || (k.ns, k.gvk) in RecordAt(c, r, earlier, p.(stored := true), rec).kinds
  {
    hide Tracked, InManifest, Recorded, KindsOf, SnapshotOf, Inv, NoCollision, AllSwept;
    var objects := r.build.objects;
    StoreLeaves(c, r, earlier, rec, p, k);
    if InManifest(k, objects) {
      ManifestKinds(k, objects);
    }
    if (k.ns, k.gvk) in KindsOf(objects) {
      ManifestRecorded(c, objects, k);
    }
  }

  lemma StoreStatusSound(r: Run, s: Status, s': Status, snapshot: Snapshot, stored: iset<(string, Snapshot)>)
    requires LastSaves(r, s, s', snapshot)
    ensures StatusSound(s', stored + iset{(r.revision, snapshot)}) && s'.snapshot == Some(snapshot)
  {
  }

  lemma StoreInv(c: Config, r: Run, earlier: Option<Snapshot>, rec: Record, p: Point, s: Status)
    requires Ready(c, r, rec) && Inv(c, r, earlier, rec, p) && Legal(c, r, p, Store(s))
    ensures Inv(c, r, earlier, rec, Next(c, r, p, Store(s)))
  {
    hide Tracked, Recorded, SnapshotOf, SweptSound, Traced, NoCollision, AllSwept, LastSaves, StatusSound, Slots;
    hide RecordedSlots, InManifest, HasKind;
    var snapshot := SnapshotOf(r.build.objects, c.hash.manifest);
    var next := Next(c, r, p, Store(s));
    var now := RecordAt(c, r, earlier, next, rec);
    StoreStatusSound(r, p.w.status, s, snapshot, rec.stored);
    if !p.stored {
      forall k | k in p.w.objs && Tracked(c, p.w.objs[k])
        ensures RecordedIn(Some(snapshot), k) || (k.ns, k.gvk) in now.kinds
      {
        StoreCovers(c, r, earlier, rec, p, k);
      }
    }
  }

  lemma StepInv(c: Config, r: Run, earlier: Option<Snapshot>, rec: Record, p: Point, x: Step)
    requires Ready(c, r, rec) && Inv(c, r, earlier, rec, p) && Legal(c, r, p, x)
    ensures Inv(c, r, earlier, rec, Next(c, r, p, x))
  {
    hide Inv, Ready, Legal, Next;
    match x {
      case Report(y) => ReportInv(c, r, earlier, rec, p, y);
      case Touch(y) => TouchInv(c, r, earlier, rec, p, y);
      case List(ns, g) => ListInv(c, r, earlier, rec, p, ns, g);
      case Delete(k, acked) => DeleteInv(c, r, earlier, rec, p, k, acked);
      case Store(s) => StoreInv(c, r, earlier, rec, p, s);
      case Elsewhere(objs) => ElsewhereInv(c, r, earlier, rec, p, objs);
    }
  }

  lemma ElsewhereInv(c: Config, r: Run, earlier: Option<Snapshot>, rec: Record, p: Point, objs: map<Key, Live>)
    requires Inv(c, r, earlier, rec, p) && Legal(c, r, p, Elsewhere(objs))
    ensures Inv(c, r, earlier, rec, Next(c, r, p, Elsewhere(objs)))
  {
    hide Inv, Drift;
    DriftInv(c, r, earlier, rec, p, objs);
  }

  lemma {:induction false} WalkInv(c: Config, r: Run, earlier: Option<Snapshot>, rec: Record, p: Point, xs: seq<Step>)
    requires Ready(c, r, rec) && Inv(c, r, earlier, rec, p) && AllLegal(c, r, p, xs)
    ensures Inv(c, r, earlier, rec, Walk(c, r, p, xs))
    decreases xs
  {
    hide Inv, Ready, Legal, Next;
    if xs != [] {
      StepInv(c, r, earlier, rec, p, xs[0]);
      WalkInv(c, r, earlier, rec, Next(c, r, p, xs[0]), xs[1..]);
    }
  }

  lemma InvIsSound(c: Config, r: Run, earlier: Option<Snapshot>, rec: Record, p: Point)
    requires Inv(c, r, earlier, rec, p)
    ensures Sound(c, p.w, RecordAt(c, r, earlier, p, rec))
  {
    hide Traced, Covered, Guarded, StatusSound, Slots, SweptSound;
    if !p.stored {
      CoveredByKinds(c, p.w, rec.kinds, Written(r, p));
    }
  }

  lemma StartInv(c: Config, r: Run, w: World, rec: Record)
    requires Sound(c, w, rec)
    ensures Inv(c, r, w.status.snapshot, rec, Start(w))
  {
    hide Traced, Covered, Guarded, StatusSound;
  }

  /** Wherever a run among other writers is cut short, the record accounts for
      all it leaves. */
  lemma InterferenceKeeps(c: Config, r: Run, w: World, rec: Record, xs: seq<Step>)
    requires Ready(c, r, rec) && Sound(c, w, rec) && AllLegal(c, r, Start(w), xs)
    ensures var p := Walk(c, r, Start(w), xs); Sound(c, p.w, RecordAt(c, r, w.status.snapshot, p, rec))
  {
    hide Ready, Sound, Inv, RecordAt;
    StartInv(c, r, w, rec);
    WalkInv(c, r, w.status.snapshot, rec, Start(w), xs);
    InvIsSound(c, r, w.status.snapshot, rec, Walk(c, r, Start(w), xs));
  }

  /** With pruning on, a run that comes to storing its snapshot has nothing
      tracked but its manifest, and what only failed attempts touched, whatever
      was written in between. */
  lemma InterferenceConverges(c: Config, r: Run, w: World, rec: Record, xs: seq<Step>, s: Status, k: Key)
    requires Ready(c, r, rec) && Sound(c, w, rec) && AllLegal(c, r, Start(w), xs) && r.spec.prune
    requires var p := Walk(c, r, Start(w), xs);
             !p.stored && Legal(c, r, p, Store(s)) && k in p.w.objs && Tracked(c, p.w.objs[k])
    ensures InManifest(k, r.build.objects) || ((k.ns, k.gvk) in rec.kinds && !RecordedIn(w.status.snapshot, k))
  {
    hide Ready, Sound, Inv, Tracked, InManifest, RecordedIn, AllSwept, LastSaves;
    var p := Walk(c, r, Start(w), xs);
    StartInv(c, r, w, rec);
    WalkInv(c, r, w.status.snapshot, rec, Start(w), xs);
    InvKeepsSnapshot(c, r, w.status.snapshot, rec, p);
    ReadyMeansNoCollision(c, r, rec);
    StoreLeaves(c, r, w.status.snapshot, rec, p, k);
  }

  lemma InvKeepsSnapshot(c: Config, r: Run, earlier: Option<Snapshot>, rec: Record, p: Point)
    requires Inv(c, r, earlier, rec, p) && !p.stored
    ensures p.w.status.snapshot == earlier
  {
  }

  lemma ReadyMeansNoCollision(c: Config, r: Run, rec: Record)
    requires Ready(c, r, rec)
    ensures NoCollision(c, r, rec)
  {
  }

  // ------------------------------------------------------------ whole histories

  /** One run with the drift during and after it. */
  datatype Stretch = Stretch(run: Run, steps: seq<Step>)

  function EndOf(c: Config, w: World, e: Stretch): Point {
    Walk(c, e.run, Start(w), e.steps)
  }

  ghost predicate LegalStretches(c: Config, w: World, es: seq<Stretch>)
    decreases es
  {
    es == [] ||
    var r := es[0].run;
    && ValidRun(r) && (r.build.Built? ==> forall o :: o in r.build.objects ==> HasKind(o))
    && AllLegal(c, r, Start(w), es[0].steps) && LegalStretches(c, EndOf(c, w, es[0]).w, es[1..])
  }

  ghost function RecordAfter(c: Config, w: World, e: Stretch, rec: Record): Record {
    RecordAt(c, e.run, w.status.snapshot, EndOf(c, w, e), rec)
  }

  ghost function Through(c: Config, w: World, rec: Record, es: seq<Stretch>): (World, Record)
    decreases es
  {
    if es == [] then (w, rec) else Through(c, EndOf(c, w, es[0]).w, RecordAfter(c, w, es[0], rec), es[1..])
  }

  /** The manifests on record and of the runs to come. */
  ghost function Arising(rec: Record, es: seq<Stretch>): iset<seq<Object>> {
    iset objects | objects in rec.manifests || exists e :: e in es && e.run.build == Built(objects)
  }

  lemma ArisingLater(c: Config, w: World, rec: Record, es: seq<Stretch>)
    requires es != []
    ensures forall objects :: objects in Arising(RecordAfter(c, w, es[0], rec), es[1..]) ==> objects in Arising(rec, es)
  {
    hide Slots, RecordedSlots, SnapshotOf;
    forall e | e in es[1..] ensures e in es {
    }
    assert es[0] in es;
  }

  /** Over every history of runs among other writers, each cut short anywhere,
      in which no two manifests collide, the record accounts for every tracked
      object, label, and ready status. */
  lemma {:induction false} MingledHistoryKeeps(c: Config, w: World, rec: Record, es: seq<Stretch>)
    requires Sound(c, w, rec) && LegalStretches(c, w, es) && Injective(c.hash.manifest, Arising(rec, es))
    ensures var (w', rec') := Through(c, w, rec, es); Sound(c, w', rec')
    decreases es
  {
    hide Sound, AllLegal, Walk, RecordAt, HasKind;
    if es != [] {
      assert es[0] in es;
      InterferenceKeeps(c, es[0].run, w, rec, es[0].steps);
      ArisingLater(c, w, rec, es);
      MingledHistoryKeeps(c, EndOf(c, w, es[0]).w, RecordAfter(c, w, es[0], rec), es[1..]);
    }
  }

  // ------------------------------------------------------------- others as drift

  /** To one Konfiguration, the calls of all others are drift. */
  lemma OthersDrift(setup: Isolation.Setup, s: Isolation.Shared, call: Isolation.Call, c: Config)
    requires Isolation.Apart(setup) && Isolation.Sorted(setup, s) && Isolation.Allowed(setup, s, call)
    requires !call.Elsewhere? && !Isolation.CalledBy(call, c.owner)
    ensures Drift(c, s.objs, Isolation.After(setup, s, call).objs)
  {
    hide Matches, Isolation.Sorted, Isolation.Allowed, Isolation.After, ShouldNotPrune;
    var s' := Isolation.After(setup, s, call);
    Isolation.CallKeepsSorted(setup, s, call);
    forall k | k in s'.objs && Matches(c.owner, s'.objs[k].labels)
      ensures k in s.objs && DriftAt(c, s.objs[k], s'.objs[k])
    {
      LabelledIsClaimed(setup, s', c.owner, k);
      NotClaimedByCaller(setup, c.owner, call, k);
      Isolation.CallerKeepsToItsOwn(setup, s, call, call.caller, k);
    }
  }

  lemma LabelledIsClaimed(setup: Isolation.Setup, s: Isolation.Shared, a: Owner, k: Key)
    requires Isolation.Sorted(setup, s) && k in s.objs && Matches(a, s.objs[k].labels)
    ensures k in setup.claims(a)
  {
  }

  lemma NotClaimedByCaller(setup: Isolation.Setup, a: Owner, call: Isolation.Call, k: Key)
    requires Isolation.Apart(setup) && k in setup.claims(a) && !call.Elsewhere? && call.caller != a
    ensures k !in setup.claims(call.caller)
  {
  }
}
