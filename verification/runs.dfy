/** What every run keeps to, write by write, wherever it is cut short. */
module Runs {
  import opened Json
  import opened Objects
  import opened Snapshots
  import opened Cluster
  import opened Manager
  import opened Applying
  import opened StatusProtocol
  import opened Controller

  /** The checksum that spares objects from the pruning of this run. */
  function Checksum(c: Config, r: Run): string {
    if r.spec.deleting || !r.build.Built? then "" else c.hash.manifest(r.build.objects)
  }

  /** The manifest, if the run comes to writing objects of it. */
  function Touchable(r: Run, t: Trace): seq<Object> {
    if t.apply != [] && r.build.Built? then r.build.objects else []
  }

  /** Objects are touched with the finalizer in place only: those of
      `objects` by the apply, doomed ones by pruning. */
  ghost predicate LawfulTouch(c: Config, r: Run, objects: seq<Object>, w: World, x: Write) {
    var m := SettingsOf(c, r.spec);
    && (x.Put? || x.Remove?) && w.finalizer.Registered?
    && (ApplyRule(m, Checksum(c, r), objects)(w, x) || PruneRule(m, Checksum(c, r))(w, x))
  }

  /** The status moves on from the persisted one, to progressing or not ready. */
  ghost predicate EarlySave(r: Run, s: Status, s': Status) {
    s' == Progressing(s) || exists revision :: s' == WithReadiness(s, r.spec, IsFalse, revision)
  }

  ghost predicate LawfulSave(c: Config, r: Run, s: Status, s': Status) {
    || EarlySave(r, s, s')
    || (r.build.Built? && LastSaves(r, s, s', SnapshotOf(r.build.objects, c.hash.manifest)))
  }

  /** A snapshot is stored in a status that is progressing; the second patch
      reports the outcome of the first. */
  ghost predicate LastSaves(r: Run, s: Status, s': Status, snapshot: Snapshot) {
    || (s.ready == Some(IsUnknown) && exists up :: s' == HalfSettled(s, r.spec, up, snapshot, r.revision))
    || (s.snapshot == Some(snapshot) && s.lastAppliedRevision == r.revision
        && s' == WithReadiness(s, r.spec, IsTrue, r.revision))
  }

  ghost predicate Lawful(c: Config, r: Run, objects: seq<Object>, w: World, x: Write) {
    match x
    case Save(s) => LawfulSave(c, r, w.status, s)
    case AddFinalizer => w.finalizer.Missing?
    case DropFinalizer => w.finalizer.Registered? && r.spec.deleting
    case _ => LawfulTouch(c, r, objects, w, x)
  }

  ghost predicate BeforeTheLast(r: Run, w: World, x: Write) {
    x.Save? ==> EarlySave(r, w.status, x.status)
  }

  ghost function RunRule(c: Config, r: Run, objects: seq<Object>): (World, Write) -> bool {
    (w: World, x: Write) => Lawful(c, r, objects, w, x)
  }

  /** As `RunRule`, before the last patches of a run that stores a snapshot. */
  ghost function BodyRule(c: Config, r: Run, objects: seq<Object>): (World, Write) -> bool {
    (w: World, x: Write) => Lawful(c, r, objects, w, x) && BeforeTheLast(r, w, x)
  }

  /** The run ends by storing the new snapshot. */
  predicate Stores(t: Trace) {
    t.exit.Healthy? || t.exit.Unhealthy?
  }

  /** The writes up to the storing of the new snapshot. */
  function Body(t: Trace): seq<Write> {
    if Stores(t) then t.begin + t.apply + t.prune else All(t)
  }

  /** Steps under one rule, in worlds with a property they keep, are steps
      under another that those worlds make weaker. */
  lemma {:induction false} StepsUnder(w: World, xs: seq<Write>, rule: (World, Write) -> bool, inv: World -> bool,
                                      target: (World, Write) -> bool)
    requires Steps(w, xs, rule) && inv(w)
    requires forall v, x :: inv(v) && rule(v, x) ==> target(v, x) && inv(Do(v, x))
    ensures Steps(w, xs, target) && inv(Replay(w, xs))
    decreases xs
  {
    if xs != [] {
      StepsUnder(Do(w, xs[0]), xs[1..], rule, inv, target);
    }
  }

  ghost function Registered(status: Status): World -> bool {
    (w: World) => w.finalizer.Registered? && w.status == status
  }

  lemma TouchLeavesKonfiguration(m: Settings, checksum: string, objects: seq<Object>, w: World, x: Write)
    requires ApplyRule(m, checksum, objects)(w, x) || PruneRule(m, checksum)(w, x)
    ensures x.Put? || x.Remove?
    ensures Do(w, x).finalizer == w.finalizer && Do(w, x).status == w.status
  {
  }

  lemma ApplyObeys(c: Config, r: Run, objects: seq<Object>, w: World, xs: seq<Write>)
    requires w.finalizer.Registered? && Steps(w, xs, ApplyRule(SettingsOf(c, r.spec), Checksum(c, r), objects))
    ensures Steps(w, xs, BodyRule(c, r, objects)) && Replay(w, xs).finalizer == w.finalizer
            && Replay(w, xs).status == w.status
  {
    hide ApplyRule, PruneRule, SettingsOf, Steps;
    forall v, x | ApplyRule(SettingsOf(c, r.spec), Checksum(c, r), objects)(v, x) && Registered(w.status)(v)
      ensures BodyRule(c, r, objects)(v, x) && Registered(w.status)(Do(v, x))
    {
      TouchLeavesKonfiguration(SettingsOf(c, r.spec), Checksum(c, r), objects, v, x);
    }
    StepsUnder(w, xs, ApplyRule(SettingsOf(c, r.spec), Checksum(c, r), objects), Registered(w.status),
               BodyRule(c, r, objects));
  }

  lemma PruneObeys(c: Config, r: Run, objects: seq<Object>, w: World, xs: seq<Write>)
    requires w.finalizer.Registered?
    requires Steps(w, xs, PruneRule(SettingsOf(c, r.spec), Checksum(c, r)))
    ensures Steps(w, xs, BodyRule(c, r, objects)) && Replay(w, xs).finalizer == w.finalizer
            && Replay(w, xs).status == w.status
  {
    hide ApplyRule, PruneRule, SettingsOf, Steps;
    forall v, x | PruneRule(SettingsOf(c, r.spec), Checksum(c, r))(v, x) && Registered(w.status)(v)
      ensures BodyRule(c, r, objects)(v, x) && Registered(w.status)(Do(v, x))
    {
      TouchLeavesKonfiguration(SettingsOf(c, r.spec), Checksum(c, r), [], v, x);
    }
    StepsUnder(w, xs, PruneRule(SettingsOf(c, r.spec), Checksum(c, r)), Registered(w.status), BodyRule(c, r, objects));
  }

  lemma OneStep(w: World, x: Write, rule: (World, Write) -> bool)
    ensures Replay(w, [x]) == Do(w, x)
    ensures rule(w, x) ==> Steps(w, [x], rule)
  {
    assert Replay(Do(w, x), []) == Do(w, x);
    assert Steps(Do(w, x), [], rule);
  }

  /** Patching a status that keeps the snapshot. */
  lemma PatchObeys(c: Config, r: Run, objects: seq<Object>, w: World, s: Status, ack: Ack)
    requires EarlySave(r, w.status, s)
    ensures Steps(w, Patch(s, ack), BodyRule(c, r, objects))
    ensures Replay(w, Patch(s, ack)).finalizer == w.finalizer && Replay(w, Patch(s, ack)).objs == w.objs
    ensures Landed(ack) ==> Replay(w, Patch(s, ack)).status == s
  {
    OneStep(w, Save(s), BodyRule(c, r, objects));
  }

  lemma UnreadyObeys(c: Config, r: Run, objects: seq<Object>, w: World, revision: string, ack: Ack)
    ensures Steps(w, Patch(WithReadiness(w.status, r.spec, IsFalse, revision), ack), BodyRule(c, r, objects))
  {
    PatchObeys(c, r, objects, w, WithReadiness(w.status, r.spec, IsFalse, revision), ack);
  }

  lemma LastPatchesObey(c: Config, r: Run, objects: seq<Object>, w: World, up: bool, snapshot: Snapshot)
    requires r.build.Built? && snapshot == SnapshotOf(r.build.objects, c.hash.manifest)
            && w.status.ready == Some(IsUnknown)
    ensures Steps(w, LastPatches(r, w, up, snapshot), RunRule(c, r, objects))
  {
    hide SnapshotOf, LawfulTouch;
    var half, whole := HalfSettled(w.status, r.spec, up, snapshot, r.revision),
        Settled(w.status, r.spec, up, snapshot, r.revision);
    var rule := RunRule(c, r, objects);
    var w1 := Replay(w, Patch(half, r.first));
    OneStep(w, Save(half), rule);
    if r.first.Done? {
      OneStep(w1, Save(whole), rule);
      assert LawfulSave(c, r, w1.status, whole);
      StepsConcat(w, Patch(half, r.first), Patch(whole, r.second), rule);
    }
  }

  lemma RegisteringObeys(c: Config, r: Run, objects: seq<Object>, w: World)
    ensures Steps(w, Registering(r, w), BodyRule(c, r, objects))
    ensures var w' := Replay(w, Registering(r, w));
            w'.objs == w.objs && w'.status == w.status && (Admitted(r, w) ==> w'.finalizer.Registered?)
  {
    OneStep(w, AddFinalizer, BodyRule(c, r, objects));
  }

  lemma DeletionObeys(c: Config, r: Run, objects: seq<Object>, w: World, t: Trace)
    requires r.spec.deleting && w.finalizer.Registered? && LegalDeletion(c, r, w, t)
    ensures Steps(w, t.prune, BodyRule(c, r, objects)) && Steps(Replay(w, t.prune), t.finish, BodyRule(c, r, objects))
  {
    hide PruneRule, SettingsOf, Collected, CollectionSucceeds;
    if t.prune != [] {
      PruneObeys(c, r, objects, w, t.prune);
    }
    OneStep(Replay(w, t.prune), DropFinalizer, BodyRule(c, r, objects));
  }

  /** A lawful start, then the same rule for the rest. */
  ghost predicate Obeys(c: Config, r: Run, w: World, t: Trace) {
    ObeysWith(c, r, Touchable(r, t), w, t)
  }

  ghost predicate ObeysWith(c: Config, r: Run, objects: seq<Object>, w: World, t: Trace) {
    && Steps(w, t.begin + t.apply + t.prune, BodyRule(c, r, objects))
    && Steps(Replay(w, t.begin + t.apply + t.prune), t.finish,
             if Stores(t) then RunRule(c, r, objects) else BodyRule(c, r, objects))
  }

  lemma ObeysInPhases(c: Config, r: Run, objects: seq<Object>, w: World, t: Trace)
    requires Steps(w, t.begin, BodyRule(c, r, objects))
    requires var w1 := Replay(w, t.begin);
             && Steps(w1, t.apply, BodyRule(c, r, objects))
             && Steps(Replay(w1, t.apply), t.prune, BodyRule(c, r, objects))
             && Steps(Replay(Replay(w1, t.apply), t.prune), t.finish,
                      if Stores(t) then RunRule(c, r, objects) else BodyRule(c, r, objects))
    ensures ObeysWith(c, r, objects, w, t)
  {
    hide BodyRule, RunRule;
    StepsConcat(w, t.begin, t.apply, BodyRule(c, r, objects));
    ReplayConcat(w, t.begin, t.apply);
    StepsConcat(w, t.begin + t.apply, t.prune, BodyRule(c, r, objects));
    ReplayConcat(w, t.begin + t.apply, t.prune);
  }

  lemma CleanupObeys(c: Config, r: Run, objects: seq<Object>, w: World, t: Trace)
    requires r.build.Built? && !r.spec.deleting && w.finalizer.Registered? && w.status.ready == Some(IsUnknown)
    requires LegalCleanup(c, r, r.build.objects, w, t)
    ensures Steps(w, t.prune, BodyRule(c, r, objects))
    ensures Replay(w, t.prune).status == w.status
    ensures Steps(Replay(w, t.prune), t.finish, if Stores(t) then RunRule(c, r, objects) else BodyRule(c, r, objects))
  {
    hide PruneRule, SettingsOf, Collected, CollectionSucceeds, BodyRule, RunRule, WithReadiness, HalfSettled;
    hide Settled, TwoPatches;
    var snapshot := SnapshotOf(r.build.objects, c.hash.manifest);
    if r.spec.prune {
      PruneObeys(c, r, objects, w, t.prune);
    } else {
      assert Replay(w, []) == w;
    }
    var w' := Replay(w, t.prune);
    if t.exit.Unready? {
      UnreadyObeys(c, r, objects, w', r.revision, r.first);
    } else if t.exit.Unhealthy? {
      LastPatchesObey(c, r, objects, w', false, snapshot);
    }
  }

  /** The apply of a run writes objects out of `objects` only. */
  ghost predicate AppliesOnly(c: Config, r: Run, objects: seq<Object>, w: World, t: Trace) {
    Steps(w, t.apply, ApplyRule(SettingsOf(c, r.spec), Checksum(c, r), objects))
  }

  lemma AppliesTouchable(c: Config, r: Run, w: World, t: Trace)
    requires ValidRun(r) && LegalRun(c, r, w, t)
    ensures AppliesOnly(c, r, Touchable(r, t), Replay(w, t.begin), t)
  {
    hide LegalCleanup, ApplyRule;
    if t.apply != [] {
      var w1, all := Replay(w, t.begin), r.build.objects;
      assert t.apply == Performance(c, r, w1).writes;
      ManifestWrites(SettingsOf(c, r.spec), w1, all, c.hash.manifest(all), false, r.wet, |all|);
    }
  }

  lemma ReconciliationObeys(c: Config, r: Run, objects: seq<Object>, w: World, t: Trace)
    requires ValidRun(r) && !r.spec.deleting && w.finalizer.Registered? && w.status.ready == Some(IsUnknown)
    requires LegalReconciliation(c, r, w, t) && AppliesOnly(c, r, objects, w, t)
    ensures Steps(w, t.apply, BodyRule(c, r, objects)) && Steps(Replay(w, t.apply), t.prune, BodyRule(c, r, objects))
    ensures Replay(Replay(w, t.apply), t.prune).status == w.status
    ensures Steps(Replay(Replay(w, t.apply), t.prune), t.finish,
                  if Stores(t) then RunRule(c, r, objects) else BodyRule(c, r, objects))
  {
    hide BodyRule, RunRule, LegalCleanup, Rehearsal, Performance, WithReadiness, ApplyRule;
    NothingReplayed(w);
    UnreadyObeys(c, r, objects, w, r.revision, r.first);
    if r.build.Built? && Rehearsal(c, r, w).ok {
      ApplyObeys(c, r, objects, w, t.apply);
      var w' := Replay(w, t.apply);
      NothingReplayed(w');
      UnreadyObeys(c, r, objects, w', r.revision, r.first);
      if Performance(c, r, w).ok {
        CleanupObeys(c, r, objects, w', t);
      }
    }
  }

  /** The world in which the progress of a run has been reported. */
  lemma BeginningObeys(c: Config, r: Run, objects: seq<Object>, w: World)
    requires Admitted(r, w)
    ensures var begin := Registering(r, w) + Patch(Progressing(w.status), r.progress);
            var w' := Replay(w, begin);
            && Steps(w, begin, BodyRule(c, r, objects))
            && w'.objs == w.objs && w'.finalizer.Registered?
            && (r.progress.Done? ==> w'.status == Progressing(w.status))
  {
    hide BodyRule;
    var registering := Registering(r, w);
    var w0 := Replay(w, registering);
    RegisteringObeys(c, r, objects, w);
    PatchObeys(c, r, objects, w0, Progressing(w.status), r.progress);
    StepsConcat(w, registering, Patch(Progressing(w.status), r.progress), BodyRule(c, r, objects));
    ReplayConcat(w, registering, Patch(Progressing(w.status), r.progress));
  }

  lemma BeginObeys(c: Config, r: Run, objects: seq<Object>, w: World, t: Trace)
    requires ValidRun(r) && LegalRun(c, r, w, t)
    ensures Steps(w, t.begin, BodyRule(c, r, objects))
  {
    hide BodyRule, LegalReconciliation;
    RegisteringObeys(c, r, objects, w);
    if Admitted(r, w) {
      BeginningObeys(c, r, objects, w);
    }
  }

  /** Every run obeys the rules, for any objects its apply keeps to. */
  lemma RunObeysWith(c: Config, r: Run, objects: seq<Object>, w: World, t: Trace)
    requires ValidRun(r) && LegalRun(c, r, w, t) && AppliesOnly(c, r, objects, Replay(w, t.begin), t)
    ensures ObeysWith(c, r, objects, w, t)
  {
    hide BodyRule, RunRule, LegalReconciliation, LegalDeletion, WithReadiness, LastPatches, SnapshotOf, ApplyRule;
    RegisteringObeys(c, r, objects, w);
    NothingReplayed(Replay(w, t.begin));
    if w.finalizer.Released? || !Admitted(r, w) || (!r.spec.deleting && r.spec.suspend) {
      ObeysInPhases(c, r, objects, w, t);
    } else if r.spec.deleting {
      DeletingRunObeys(c, r, objects, w, t);
    } else if r.source.Unfetched? || !Dependencies.Open(r.dependencies) {
      UnreadyObeys(c, r, objects, Replay(w, t.begin), if r.source.Unfetched? then r.source.revision else r.revision,
                   r.first);
      ObeysInPhases(c, r, objects, w, t);
    } else {
      ProgressingRunObeys(c, r, objects, w, t);
    }
  }

  /** So it does for its own manifest. */
  lemma RunObeys(c: Config, r: Run, w: World, t: Trace)
    requires ValidRun(r) && LegalRun(c, r, w, t)
    ensures Obeys(c, r, w, t)
  {
    hide LegalRun, ObeysWith, AppliesOnly;
    AppliesTouchable(c, r, w, t);
    RunObeysWith(c, r, Touchable(r, t), w, t);
  }

  lemma DeletionShape(c: Config, r: Run, w: World, t: Trace)
    requires LegalDeletion(c, r, w, t)
    ensures t.apply == [] && !Stores(t)
  {
  }

  lemma SameLastPatches(r: Run, w: World, w': World, up: bool, snapshot: Snapshot)
    requires w.status == w'.status
    ensures LastPatches(r, w, up, snapshot) == LastPatches(r, w', up, snapshot)
  {
  }

  lemma DeletingRunObeys(c: Config, r: Run, objects: seq<Object>, w: World, t: Trace)
    requires ValidRun(r) && LegalRun(c, r, w, t) && Admitted(r, w) && r.spec.deleting
    ensures ObeysWith(c, r, objects, w, t)
  {
    hide BodyRule, RunRule, LegalDeletion;
    RegisteringObeys(c, r, objects, w);
    var w1 := Replay(w, t.begin);
    NothingReplayed(w1);
    DeletionObeys(c, r, objects, w1, t);
    DeletionShape(c, r, w1, t);
    ObeysInPhases(c, r, objects, w, t);
  }

  lemma ProgressingRunObeys(c: Config, r: Run, objects: seq<Object>, w: World, t: Trace)
    requires ValidRun(r) && LegalRun(c, r, w, t) && Admitted(r, w) && !r.spec.deleting && !r.spec.suspend
    requires r.source.Fetched? && Dependencies.Open(r.dependencies)
    requires AppliesOnly(c, r, objects, Replay(w, t.begin), t)
    ensures ObeysWith(c, r, objects, w, t)
  {
    hide BodyRule, RunRule, LegalReconciliation, LastPatches, SnapshotOf, ApplyRule;
    BeginningObeys(c, r, objects, w);
    var w1 := Replay(w, t.begin);
    NothingReplayed(w1);
    if r.progress.Done? {
      ReconciliationObeys(c, r, objects, w1, if t.exit.Healthy? then t.(finish := []) else t);
      if t.exit.Healthy? {
        HealthyEndsBare(c, r, w1, t.(finish := []));
        LastPatchesObey(c, r, objects, Replay(Replay(w1, t.apply), t.prune), true,
                        SnapshotOf(r.build.objects, c.hash.manifest));
        SameLastPatches(r, Replay(Replay(w1, t.apply), t.prune), w1, true,
                        SnapshotOf(r.build.objects, c.hash.manifest));
      }
    }
    ObeysInPhases(c, r, objects, w, t);
  }

  /** The worlds between the phases of a run. */
  function Begun(w: World, t: Trace): World {
    Replay(w, t.begin)
  }

  function Performed(w: World, t: Trace): World {
    Replay(Begun(w, t), t.apply)
  }

  function Cleaned(w: World, t: Trace): World {
    Replay(Performed(w, t), t.prune)
  }

  lemma CleanedBody(w: World, t: Trace)
    requires Stores(t)
    ensures Replay(w, Body(t)) == Cleaned(w, t) && All(t) == Body(t) + t.finish
  {
    ReplayConcat(w, t.begin, t.apply);
    ReplayConcat(w, t.begin + t.apply, t.prune);
  }

  /** A run that stores a snapshot has applied every object, or found it
      current, and has pruned without failure if pruning is on. */
  ghost predicate Accomplished(c: Config, r: Run, w: World, t: Trace)
    requires ValidRun(r)
  {
    var m, w1, w2 := SettingsOf(c, r.spec), Begun(w, t), Performed(w, t);
    && !r.spec.deleting && r.build.Built?
    && w1.objs == w.objs && w2.status == w1.status && w1.status.snapshot == w.status.snapshot
    && Rehearsal(c, r, w1).ok && Performance(c, r, w1).ok && t.apply == Performance(c, r, w1).writes
    && (if r.spec.prune then
          CollectionSucceeds(m, Checksum(c, r), w2, r.prune)
            && Cleaned(w, t) == Collected(m, Checksum(c, r), w2, r.prune)
        else Cleaned(w, t) == w2)
    && t.finish == LastPatches(r, Cleaned(w, t), t.exit.Healthy?, SnapshotOf(r.build.objects, c.hash.manifest))
  }

  lemma StoredMeansAccomplished(c: Config, r: Run, w: World, t: Trace)
    requires ValidRun(r) && LegalRun(c, r, w, t) && Stores(t)
    ensures Accomplished(c, r, w, t)
  {
    hide SettingsOf, Rehearsal, Performance, Collected, CollectionSucceeds, PruneRule, HalfSettled, Settled;
    hide TwoPatches, WithReadiness, SnapshotOf;
    var objects := Touchable(r, t);
    if r.spec.deleting && LegalDeletion(c, r, Replay(w, t.begin), t) {
      DeletionShape(c, r, Replay(w, t.begin), t);
    }
    assert Admitted(r, w) && !r.spec.deleting && r.progress.Done?;
    BeginningObeys(c, r, objects, w);
    var w1, w2 := Begun(w, t), Performed(w, t);
    assert r.build.Built? && t.apply == Performance(c, r, w1).writes
      && LegalCleanup(c, r, r.build.objects, w2, if t.exit.Healthy? then t.(finish := []) else t);
    SnapshotChecksum(r.build.objects, c.hash.manifest);
    PerformanceKeepsStatus(c, r, w1);
    NothingReplayed(w2);
    assert Cleaned(w, t).status == w2.status by {
      CleanupObeys(c, r, objects, w2, if t.exit.Healthy? then t.(finish := []) else t);
    }
  }

  ghost function SnapshotIs(snapshot: Option<Snapshot>): World -> bool {
    (w: World) => w.status.snapshot == snapshot
  }

  lemma BodyKeepsSnapshot(c: Config, r: Run, w: World, t: Trace)
    requires Obeys(c, r, w, t)
    ensures Always(w, Body(t), SnapshotIs(w.status.snapshot))
  {
    hide Lawful, Steps;
    var rule, inv := BodyRule(c, r, Touchable(r, t)), SnapshotIs(w.status.snapshot);
    BodyObeys(c, r, Touchable(r, t), w, t);
    forall v, x | inv(v) && rule(v, x) ensures inv(Do(v, x)) {
    }
    LawfulLogKeeps(w, Body(t), rule, inv);
  }

  lemma BodyObeys(c: Config, r: Run, objects: seq<Object>, w: World, t: Trace)
    requires ObeysWith(c, r, objects, w, t)
    ensures Steps(w, Body(t), BodyRule(c, r, objects))
  {
    hide BodyRule;
    if !Stores(t) {
      StepsConcat(w, t.begin + t.apply + t.prune, t.finish, BodyRule(c, r, objects));
    }
  }

  lemma {:induction false} SavesOnly(w: World, xs: seq<Write>, snapshot: Option<Snapshot>)
    requires forall x :: x in xs ==> x.Save? && x.status.snapshot == snapshot
    ensures Replay(w, xs).objs == w.objs && Replay(w, xs).finalizer == w.finalizer
    ensures xs != [] ==> Replay(w, xs).status.snapshot == snapshot
    decreases xs
  {
    if xs != [] {
      SavesOnly(Do(w, xs[0]), xs[1..], snapshot);
    }
  }

  /** Cut short after the body, a run has stored its snapshot and touched
      nothing else. */
  lemma StoredCut(c: Config, r: Run, w: World, t: Trace, cut: nat)
    requires ValidRun(r) && Stores(t) && Accomplished(c, r, w, t) && |Body(t)| < cut <= |All(t)|
    ensures var w' := Replay(w, All(t)[..cut]);
            && w'.objs == Cleaned(w, t).objs && w'.finalizer == Cleaned(w, t).finalizer
            && w'.status.snapshot == Some(SnapshotOf(r.build.objects, c.hash.manifest))
  {
    hide Rehearsal, Performance, Collected, CollectionSucceeds, SnapshotOf;
    var n := cut - |Body(t)|;
    CleanedBody(w, t);
    assert All(t)[..cut] == Body(t) + t.finish[..n];
    ReplayConcat(w, Body(t), t.finish[..n]);
    SavesOnly(Cleaned(w, t), t.finish[..n], Some(SnapshotOf(r.build.objects, c.hash.manifest)));
  }

  /** Wherever a run is cut short, the snapshot it found is stored still unless
      its body is complete; then it is that one or the new one. */
  lemma SnapshotChangesLate(c: Config, r: Run, w: World, t: Trace, cut: nat)
    requires ValidRun(r) && LegalRun(c, r, w, t) && cut <= |All(t)|
    ensures var w' := Replay(w, All(t)[..cut]);
            w'.status.snapshot != w.status.snapshot ==>
              && Stores(t) && cut > |Body(t)| && Accomplished(c, r, w, t)
              && w'.status.snapshot == Some(SnapshotOf(r.build.objects, c.hash.manifest))
  {
    hide BodyRule, Accomplished;
    RunObeys(c, r, w, t);
    BodyKeepsSnapshot(c, r, w, t);
    if Stores(t) && cut > |Body(t)| {
      StoredMeansAccomplished(c, r, w, t);
      StoredCut(c, r, w, t, cut);
    } else {
      assert All(t)[..cut] == Body(t)[..cut];
      assert SnapshotIs(w.status.snapshot)(Replay(w, Body(t)[..cut]));
    }
  }

  lemma RunSteps(c: Config, r: Run, w: World, t: Trace)
    requires Obeys(c, r, w, t)
    ensures Steps(w, All(t), RunRule(c, r, Touchable(r, t)))
  {
    hide Lawful, Steps;
    var objects := Touchable(r, t);
    var body := t.begin + t.apply + t.prune;
    StepsUnder(w, body, BodyRule(c, r, objects), _ => true, RunRule(c, r, objects));
    if !Stores(t) {
      StepsUnder(Replay(w, body), t.finish, BodyRule(c, r, objects), _ => true, RunRule(c, r, objects));
    }
    StepsConcat(w, body, t.finish, RunRule(c, r, objects));
  }

  lemma {:induction false} StepAt(w: World, xs: seq<Write>, rule: (World, Write) -> bool, n: nat)
    requires Steps(w, xs, rule) && n < |xs|
    ensures rule(Replay(w, xs[..n]), xs[n])
    decreases xs
  {
    if n > 0 {
      StepAt(Do(w, xs[0]), xs[1..], rule, n - 1);
      assert xs[..n][1..] == xs[1..][..n - 1];
    }
  }

  /** Ready is only ever reported by a run that found its dependencies ready,
      once its body is complete. */
  lemma ReadyOnlyPastTheGate(c: Config, r: Run, w: World, t: Trace, n: nat)
    requires ValidRun(r) && LegalRun(c, r, w, t) && n < |All(t)|
    requires All(t)[n].Save? && All(t)[n].status.ready == Some(IsTrue)
    ensures r.source.Fetched? && Dependencies.Open(r.dependencies) && !r.spec.deleting && Stores(t) && n >= |Body(t)|
  {
    hide LegalReconciliation, Steps, LawfulTouch;
    if n < |Body(t)| {
      assert All(t)[n] == Body(t)[n];
      RunObeys(c, r, w, t);
      BodyObeys(c, r, Touchable(r, t), w, t);
      StepAt(w, Body(t), BodyRule(c, r, Touchable(r, t)), n);
    }
  }
}
