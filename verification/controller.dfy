/** One run of the controller on one Konfiguration, with all its exits. */
module Controller {
  import opened Json
  import opened Objects
  import opened Snapshots
  import opened Cluster
  import opened Manager
  import opened StatusProtocol
  import opened Applying
  import Dependencies

  /** What stays the same from run to run. */
  datatype Config = Config(owner: Owner, hash: Hasher, diff: (Object, Live) -> Verdict)

  datatype Source = Fetched | Unfetched(revision: string)

  /** The evaluated, sorted manifest; without a workspace the run ends silently. */
  datatype Build = NoWorkspace | Broken | Built(objects: seq<Object>)

  /** A run: the spec it reads and all the answers it meets. `first` and
      `second` end the status patches after the one that reports progress. */
  datatype Run = Run(
    spec: Spec, revision: string, finalizer: Ack, source: Source, dependencies: Dependencies.Gate, progress: Ack,
    kubeClient: bool, build: Build, dry: seq<Script>, wet: seq<Script>, prune: PruneAnswers,
    up: bool, first: Ack, second: Ack, release: Ack)

  datatype Exit = Stopped | Unready | Unhealthy | Healthy | Leaving

  /** The writes of a run, by phase. */
  datatype Trace = Trace(begin: seq<Write>, apply: seq<Write>, prune: seq<Write>, finish: seq<Write>, exit: Exit)

  function All(t: Trace): seq<Write> {
    t.begin + t.apply + t.prune + t.finish
  }

  predicate ValidRun(r: Run) {
    r.build.Built? ==> |r.dry| == |r.build.objects| == |r.wet|
  }

  function SettingsOf(c: Config, spec: Spec): Settings {
    Settings(c.owner, spec.force, spec.deleting, c.hash, c.diff)
  }

  function Registering(r: Run, w: World): seq<Write> {
    if w.finalizer.Missing? then IfLanded(r.finalizer, [AddFinalizer]) else []
  }

  predicate Admitted(r: Run, w: World) {
    w.finalizer.Registered? || (w.finalizer.Missing? && r.finalizer.Done?)
  }

  /** The cluster after pruning from the stored snapshot. */
  ghost function Collected(m: Settings, checksum: string, w: World, answers: PruneAnswers): World {
    match w.status.snapshot
    case None => w
    case Some(last) => w.(objs := Pruned(m, checksum, w.objs, answers, last))
  }

  ghost predicate CollectionSucceeds(m: Settings, checksum: string, w: World, answers: PruneAnswers) {
    match w.status.snapshot
    case None => true
    case Some(last) => PruneSucceeds(m, checksum, w.objs, answers, last)
  }

  /** The run ends with a single patch: not ready. */
  ghost predicate GaveUp(r: Run, w: World, t: Trace) {
    t.exit == Unready && t.finish == Patch(WithReadiness(w.status, r.spec, IsFalse, r.revision), r.first)
  }

  /** The dry run of an enabled validation. */
  function Rehearsal(c: Config, r: Run, w: World): Outcome
    requires ValidRun(r) && r.build.Built?
  {
    if r.spec.validate then
      ManifestOutcome(SettingsOf(c, r.spec), w, r.build.objects, c.hash.manifest(r.build.objects), true, r.dry)
    else Outcome([], [], true)
  }

  /** The real apply, skipped when the rehearsal found nothing to change. */
  function Performance(c: Config, r: Run, w: World): Outcome
    requires ValidRun(r) && r.build.Built?
  {
    if r.spec.validate && Rehearsal(c, r, w).changes == [] then Outcome([], [], true)
    else ManifestOutcome(SettingsOf(c, r.spec), w, r.build.objects, c.hash.manifest(r.build.objects), false, r.wet)
  }

  /** `reconcile`, from the world it starts in; a healthy one leaves the last
      patches to its caller. */
  ghost predicate LegalReconciliation(c: Config, r: Run, w: World, t: Trace)
    requires ValidRun(r)
  {
    match r.build
    case NoWorkspace => t.apply == [] && t.prune == [] && t.finish == [] && t.exit == Stopped
    case Broken => t.apply == [] && t.prune == [] && GaveUp(r, w, t)
    case Built(objects) =>
      if !Rehearsal(c, r, w).ok then t.apply == [] && t.prune == [] && GaveUp(r, w, t)
      else
        && t.apply == Performance(c, r, w).writes
        && if !Performance(c, r, w).ok then t.prune == [] && GaveUp(r, w, t)
           else LegalCleanup(c, r, objects, Replay(w, t.apply), t)
  }

  /** What follows a successful apply. */
  ghost predicate LegalCleanup(c: Config, r: Run, objects: seq<Object>, w: World, t: Trace) {
    var m, snapshot := SettingsOf(c, r.spec), SnapshotOf(objects, c.hash.manifest);
    && (if r.spec.prune then PruningLog(m, snapshot.checksum, w, t.prune, Collected(m, snapshot.checksum, w, r.prune))
        else t.prune == [])
    && if r.spec.prune && !CollectionSucceeds(m, snapshot.checksum, w, r.prune) then GaveUp(r, w, t)
       else if r.spec.healthChecks && !r.up then
         t.exit == Unhealthy && t.finish == LastPatches(r, w, false, snapshot)
       else t.exit == Healthy && t.finish == []
  }

  function LastPatches(r: Run, w: World, up: bool, snapshot: Snapshot): seq<Write> {
    TwoPatches(HalfSettled(w.status, r.spec, up, snapshot, r.revision),
               Settled(w.status, r.spec, up, snapshot, r.revision), r.first, r.second)
  }

  /** `reconcileDelete`. */
  ghost predicate LegalDeletion(c: Config, r: Run, w: World, t: Trace) {
    var m := SettingsOf(c, r.spec);
    && t.apply == []
    && if r.spec.prune && !r.spec.suspend then
         if !r.kubeClient then t.prune == [] && t.finish == [] && t.exit == Stopped
         else
           && PruningLog(m, "", w, t.prune, Collected(m, "", w, r.prune))
           && if !CollectionSucceeds(m, "", w, r.prune) then t.finish == [] && t.exit == Stopped
              else t.finish == IfLanded(r.release, [DropFinalizer]) && t.exit == Leaving
       else t.prune == [] && t.finish == IfLanded(r.release, [DropFinalizer]) && t.exit == Leaving
  }

  ghost predicate LegalRun(c: Config, r: Run, w: World, t: Trace)
    requires ValidRun(r)
  {
    if w.finalizer.Released? then t == Trace([], [], [], [], Stopped)
    else if !Admitted(r, w) then t == Trace(Registering(r, w), [], [], [], Stopped)
    else if r.spec.deleting then t.begin == Registering(r, w) && LegalDeletion(c, r, Replay(w, t.begin), t)
    else if r.spec.suspend then t == Trace(Registering(r, w), [], [], [], Stopped)
    else if r.source.Unfetched? || !Dependencies.Open(r.dependencies) then
      var revision := if r.source.Unfetched? then r.source.revision else r.revision;
      t == Trace(Registering(r, w), [], [], Patch(WithReadiness(w.status, r.spec, IsFalse, revision), r.first), Unready)
    else
      && t.begin == Registering(r, w) + Patch(Progressing(w.status), r.progress)
      && if !r.progress.Done? then t == Trace(t.begin, [], [], [], Stopped)
         else
           && LegalReconciliation(c, r, Replay(w, t.begin), if t.exit.Healthy? then t.(finish := []) else t)
           && (t.exit.Healthy? ==>
                 t.finish == LastPatches(r, Replay(w, t.begin), true, SnapshotOf(r.build.objects, c.hash.manifest)))
  }

  lemma ReplayPhases(w: World, t: Trace)
    ensures Replay(w, All(t)) == Replay(Replay(Replay(Replay(w, t.begin), t.apply), t.prune), t.finish)
  {
    ReplayConcat(w, t.begin, t.apply);
    ReplayConcat(w, t.begin + t.apply, t.prune);
    ReplayConcat(w, t.begin + t.apply + t.prune, t.finish);
  }

  /** Pruning and applying leave the Konfiguration itself alone. */
  lemma CollectedKeepsStatus(m: Settings, checksum: string, w: World, answers: PruneAnswers)
    ensures Collected(m, checksum, w, answers).status == w.status
    ensures Collected(m, checksum, w, answers).finalizer == w.finalizer
  {
  }

  /** A dry run writes nothing; a real one leaves the Konfiguration alone. */
  lemma PerformanceKeepsStatus(c: Config, r: Run, w: World)
    requires ValidRun(r) && r.build.Built?
    ensures Rehearsal(c, r, w).writes == []
    ensures Replay(w, Performance(c, r, w).writes).status == w.status
    ensures Replay(w, Performance(c, r, w).writes).finalizer == w.finalizer
  {
    var m, objects := SettingsOf(c, r.spec), r.build.objects;
    var checksum := c.hash.manifest(objects);
    ManifestWrites(m, w, objects, checksum, true, r.dry, |objects|);
    ManifestWrites(m, w, objects, checksum, false, r.wet, |objects|);
  }

  /** A trace is its begin and apply phases, and the tail. */
  lemma TailPhases(log: seq<Write>, w: World, xs: seq<Write>, tail: Trace)
    requires tail.begin == [] && tail.apply == []
    ensures log + All(tail.(apply := xs)) == log + xs + All(tail)
    ensures Replay(w, All(tail.(apply := xs))) == Replay(Replay(w, xs), All(tail))
  {
    assert All(tail) == tail.prune + tail.finish;
    assert All(tail.(apply := xs)) == xs + All(tail);
    ReplayConcat(w, xs, All(tail));
  }

  lemma LastPhases(log: seq<Write>, w: World, xs: seq<Write>, tail: Trace)
    requires tail.begin == [] && tail.apply == [] && tail.prune == []
    ensures log + All(tail.(prune := xs)) == log + xs + All(tail)
    ensures Replay(w, All(tail.(prune := xs))) == Replay(Replay(w, xs), All(tail))
  {
    assert All(tail) == tail.finish;
    assert All(tail.(prune := xs)) == xs + All(tail);
    ReplayConcat(w, xs, All(tail));
  }

  lemma FinishPhase(log: seq<Write>, w: World, t: Trace, xs: seq<Write>)
    requires t.finish == []
    ensures log + All(t.(finish := xs)) == log + All(t) + xs
    ensures Replay(w, All(t.(finish := xs))) == Replay(Replay(w, All(t)), xs)
  {
    assert All(t.(finish := xs)) == All(t) + xs;
    ReplayConcat(w, All(t), xs);
  }

  lemma HeadPhases(log: seq<Write>, w: World, xs: seq<Write>, tail: Trace)
    requires tail.begin == []
    ensures log + All(tail.(begin := xs)) == log + xs + All(tail)
    ensures Replay(w, All(tail.(begin := xs))) == Replay(Replay(w, xs), All(tail))
  {
    assert All(tail.(begin := xs)) == xs + All(tail);
    ReplayConcat(w, xs, All(tail));
  }

  function Ending(finish: seq<Write>, exit: Exit): (t: Trace)
    ensures All(t) == finish
  {
    Trace([], [], [], finish, exit)
  }

  lemma PatchStores(w: World, s: Status, ack: Ack)
    ensures Landed(ack) ==> Replay(w, Patch(s, ack)).status == s
  {
    assert Landed(ack) ==> Replay(w, [Save(s)]) == Replay(Do(w, Save(s)), []);
  }

  lemma NothingReplayed(w: World)
    ensures Replay(w, []) == w
  {
  }

  lemma PhasesIgnoreBegin(c: Config, r: Run, w: World, t: Trace, t': Trace)
    requires ValidRun(r) && t' == t.(begin := t'.begin)
    ensures LegalReconciliation(c, r, w, t) ==> LegalReconciliation(c, r, w, t')
    ensures LegalDeletion(c, r, w, t) ==> LegalDeletion(c, r, w, t')
  {
  }

  lemma HealthyEndsBare(c: Config, r: Run, w: World, t: Trace)
    requires ValidRun(r) && LegalReconciliation(c, r, w, t) && t.exit.Healthy?
    ensures r.build.Built? && t.finish == []
  {
  }

  lemma CleanupIgnoresApply(c: Config, r: Run, objects: seq<Object>, w: World, t: Trace, t': Trace)
    requires LegalCleanup(c, r, objects, w, t) && t.prune == t'.prune && t.finish == t'.finish && t.exit == t'.exit
    ensures LegalCleanup(c, r, objects, w, t')
  {
  }

  class Reconciler {
    const c: Config
    const api: Api

    constructor (c: Config, api: Api)
      ensures this.c == c && this.api == api
    {
      this.c, this.api := c, api;
    }

    /** `Prune`, as the two callers see it. */
    method Collect(m: Settings, last: Option<Snapshot>, next: Option<Snapshot>, answers: PruneAnswers)
      returns (ok: bool, ghost writes: seq<Write>)
      requires last == api.world.status.snapshot
      modifies api
      ensures var checksum := if next.Some? then next.value.checksum else "";
              && ok == CollectionSucceeds(m, checksum, old(api.world), answers)
              && PruningLog(m, checksum, old(api.world), writes, Collected(m, checksum, old(api.world), answers))
              && api.world == Collected(m, checksum, old(api.world), answers)
      ensures api.log == old(api.log) + writes && api.world == Replay(old(api.world), writes)
    {
      hide Pruned, PruneSucceeds, Steps;
      var manager := new Manager(m, api);
      ok, writes := manager.Prune(last, next, answers);
    }

    /** The manager's two passes over the manifest. */
    method Apply(m: Settings, snapshot: Snapshot, r: Run) returns (ok: bool, ghost out: Outcome)
      requires ValidRun(r) && r.build.Built?
      requires m == SettingsOf(c, r.spec) && snapshot.checksum == c.hash.manifest(r.build.objects)
      modifies api
      ensures ok == (Rehearsal(c, r, old(api.world)).ok && out.ok)
      ensures out ==
                if Rehearsal(c, r, old(api.world)).ok then Performance(c, r, old(api.world)) else Outcome([], [], false)
      ensures api.log == old(api.log) + out.writes && api.world == Replay(old(api.world), out.writes)
    {
      hide ManifestOutcome;
      var manager := new Manager(m, api);
      var reconcileRequired := true;
      out := Outcome([], [], true);
      ok := true;
      if r.spec.validate {
        var changes: seq<Change>;
        PerformanceKeepsStatus(c, r, api.world);
        changes, ok := manager.ReconcileUnstructured(snapshot, r.build.objects, true, r.dry);
        if !ok {
          out := Outcome([], [], false);
          return;
        }
        reconcileRequired := changes != [];
      }
      if reconcileRequired {
        var changes: seq<Change>;
        out := ManifestOutcome(m, api.world, r.build.objects, snapshot.checksum, false, r.wet);
        changes, ok := manager.ReconcileUnstructured(snapshot, r.build.objects, false, r.wet);
      }
    }

    method GiveUp(konfig: Konfiguration, r: Run) returns (ghost t: Trace)
      requires konfig.api == api && konfig.spec == r.spec
      modifies konfig, api
      ensures t == Ending(Patch(WithReadiness(old(konfig.status), r.spec, IsFalse, r.revision), r.first), Unready)
      ensures api.log == old(api.log) + All(t) && api.world == Replay(old(api.world), All(t))
    {
      t := Ending(Patch(WithReadiness(konfig.status, r.spec, IsFalse, r.revision), r.first), Unready);
      var _ := konfig.SetNotReady(r.revision, r.first);
    }

    /** The tail of `reconcile`: pruning and the health checks. */
    method CleanUp(konfig: Konfiguration, r: Run, m: Settings, snapshot: Snapshot) returns (ok: bool, ghost t: Trace)
      requires konfig.api == api && konfig.spec == r.spec && konfig.status == api.world.status
      requires r.build.Built? && m == SettingsOf(c, r.spec) && snapshot == SnapshotOf(r.build.objects, c.hash.manifest)
      modifies konfig, api
      ensures t.begin == [] && t.apply == [] && LegalCleanup(c, r, r.build.objects, old(api.world), t)
      ensures ok == t.exit.Healthy? && (t.exit.Healthy? || t.exit.Unhealthy? || t.exit.Unready?)
      ensures ok ==> konfig.status == old(konfig.status)
      ensures api.log == old(api.log) + All(t) && api.world == Replay(old(api.world), All(t))
    {
      hide All, Replay, Patch, Collected, CollectionSucceeds, PruningLog, WithReadiness, HalfSettled, Settled;
      hide TwoPatches, SnapshotOf, SettingsOf;
      ghost var w, writes: seq<Write> := api.world, [];
      SnapshotChecksum(r.build.objects, c.hash.manifest);
      CollectedKeepsStatus(m, snapshot.checksum, w, r.prune);
      NothingReplayed(w);
      if r.spec.prune {
        var pruned: bool;
        pruned, writes := Collect(m, konfig.status.snapshot, Some(snapshot), r.prune);
        if !pruned {
          t := GiveUp(konfig, r);
          LastPhases(old(api.log), w, writes, t);
          t := t.(prune := writes);
          return false, t;
        }
      }
      if r.spec.healthChecks && !r.up {
        t := Ending(LastPatches(r, w, false, snapshot), Unhealthy);
        LastPhases(old(api.log), w, writes, t);
        var _ := konfig.SetNotReadySnapshot(snapshot, r.revision, r.first, r.second);
        ok := false;
      } else {
        ok := true;
        t := Ending([], Healthy);
        LastPhases(old(api.log), w, writes, t);
        NothingReplayed(api.world);
      }
      t := t.(prune := writes);
    }

    /** `reconcile`. */
    method ReconcileManifest(konfig: Konfiguration, r: Run) returns (result: Option<Snapshot>, ghost t: Trace)
      requires ValidRun(r)
      requires konfig.api == api && konfig.spec == r.spec && konfig.status == api.world.status
      modifies konfig, api
      ensures t.begin == [] && LegalReconciliation(c, r, old(api.world), t)
      ensures result.Some? == t.exit.Healthy?
      ensures result.Some? ==>
                r.build.Built? && result.value == SnapshotOf(r.build.objects, c.hash.manifest)
                  && konfig.status == old(konfig.status)
      ensures api.log == old(api.log) + All(t) && api.world == Replay(old(api.world), All(t))
    {
      hide All, Replay, Patch, Rehearsal, Performance, WithReadiness, SnapshotOf, SettingsOf, LegalCleanup;
      ghost var w := api.world;
      if r.build.NoWorkspace? {
        t := Ending([], Stopped);
        NothingReplayed(w);
        return None, t;
      }
      if r.build.Broken? {
        t := GiveUp(konfig, r);
        return None, t;
      }
      var m := SettingsOf(c, r.spec);
      var snapshot := NewSnapshotFromUnstructured(r.build.objects, c.hash.manifest);
      SnapshotChecksum(r.build.objects, c.hash.manifest);
      PerformanceKeepsStatus(c, r, w);
      var ok: bool;
      ghost var out: Outcome;
      ok, out := Apply(m, snapshot, r);
      ghost var tail: Trace;
      if !ok {
        NothingReplayed(w);
        tail := GiveUp(konfig, r);
        t := tail.(apply := out.writes);
        TailPhases(old(api.log), w, out.writes, tail);
        return None, t;
      }
      ok, tail := CleanUp(konfig, r, m, snapshot);
      t := tail.(apply := out.writes);
      TailPhases(old(api.log), w, out.writes, tail);
      CleanupIgnoresApply(c, r, r.build.objects, Replay(w, out.writes), tail, t);
      return if ok then Some(snapshot) else None, t;
    }

    /** `reconcileDelete`. */
    method ReconcileDelete(konfig: Konfiguration, r: Run) returns (ghost t: Trace)
      requires konfig.status == api.world.status
      modifies api
      ensures t.begin == [] && LegalDeletion(c, r, old(api.world), t)
      ensures api.log == old(api.log) + All(t) && api.world == Replay(old(api.world), All(t))
    {
      hide All, Collected, CollectionSucceeds, PruningLog, SettingsOf;
      ghost var w, writes: seq<Write> := api.world, [];
      NothingReplayed(w);
      if r.spec.prune && !r.spec.suspend {
        var m := SettingsOf(c, r.spec);
        if !r.kubeClient {
          t := Ending([], Stopped);
          return;
        }
        var pruned: bool;
        pruned, writes := Collect(m, konfig.status.snapshot, None, r.prune);
        if !pruned {
          t := Ending([], Stopped);
          LastPhases(old(api.log), w, writes, t);
          t := t.(prune := writes);
          return;
        }
      }
      t := Ending(IfLanded(r.release, [DropFinalizer]), Leaving);
      LastPhases(old(api.log), w, writes, t);
      t := t.(prune := writes);
      if Landed(r.release) {
        api.Carry(DropFinalizer);
      }
    }

    /** `Reconcile`. */
    method Reconcile(r: Run) returns (ghost t: Trace)
      requires ValidRun(r)
      modifies api
      ensures LegalRun(c, r, old(api.world), t)
      ensures api.log == old(api.log) + All(t) && api.world == Replay(old(api.world), All(t))
    {
      hide All, LegalReconciliation, LegalDeletion, Progressing, WithReadiness, HalfSettled, Settled;
      hide TwoPatches, SnapshotOf;
      ghost var w, begin := api.world, Registering(r, api.world);
      NothingReplayed(w);
      if api.world.finalizer.Released? {
        t := Ending([], Stopped);
        return;
      }
      var konfig := new Konfiguration.Get(api, r.spec);
      if api.world.finalizer.Missing? {
        if Landed(r.finalizer) {
          api.Carry(AddFinalizer);
        }
        if !r.finalizer.Done? {
          t := Trace(begin, [], [], [], Stopped);
          HeadPhases(old(api.log), w, begin, Ending([], Stopped));
          return;
        }
      }
      if r.spec.deleting {
        ghost var tail := ReconcileDelete(konfig, r);
        t := tail.(begin := begin);
        HeadPhases(old(api.log), w, begin, tail);
        PhasesIgnoreBegin(c, r, Replay(w, begin), tail, t);
        return;
      }
      if r.spec.suspend {
        t := Trace(begin, [], [], [], Stopped);
        HeadPhases(old(api.log), w, begin, Ending([], Stopped));
        return;
      }
      if r.source.Unfetched? {
        t := NotStarted(konfig, r, r.source.revision, w, begin, old(api.log));
        return;
      }
      var blocked := Dependencies.CheckDependencies(r.dependencies);
      if blocked.Some? {
        t := NotStarted(konfig, r, r.revision, w, begin, old(api.log));
        return;
      }
      t := ReconcileSource(konfig, r, w, begin, old(api.log));
    }

    /** The source or a dependency is missing. */
    method NotStarted(konfig: Konfiguration, r: Run, revision: string, ghost w: World, ghost begin: seq<Write>,
                      ghost log: seq<Write>)
      returns (ghost t: Trace)
      requires konfig.api == api && konfig.spec == r.spec && konfig.status == w.status
      requires api.world == Replay(w, begin) && api.log == log + begin
      modifies konfig, api
      ensures t == Trace(begin, [], [], Patch(WithReadiness(w.status, r.spec, IsFalse, revision), r.first), Unready)
      ensures api.log == log + All(t) && api.world == Replay(w, All(t))
    {
      hide All, WithReadiness;
      ghost var tail := Ending(Patch(WithReadiness(w.status, r.spec, IsFalse, revision), r.first), Unready);
      t := tail.(begin := begin);
      HeadPhases(log, w, begin, tail);
      var _ := konfig.SetNotReady(revision, r.first);
    }

    /** `Reconcile` from the report of progress on. */
    method ReconcileSource(konfig: Konfiguration, r: Run, ghost w: World, ghost registering: seq<Write>,
                           ghost log: seq<Write>)
      returns (ghost t: Trace)
      requires ValidRun(r) && konfig.api == api && konfig.spec == r.spec
              && konfig.status == api.world.status == w.status
      requires api.world == Replay(w, registering) && api.log == log + registering
      modifies konfig, api
      ensures t.begin == registering + Patch(Progressing(w.status), r.progress)
      ensures if !r.progress.Done? then t == Trace(t.begin, [], [], [], Stopped)
              else
                && LegalReconciliation(c, r, Replay(w, t.begin), if t.exit.Healthy? then t.(finish := []) else t)
                && (t.exit.Healthy? ==>
                      && r.build.Built?
                      && t.finish == LastPatches(r, Replay(w, t.begin), true,
                                                 SnapshotOf(r.build.objects, c.hash.manifest)))
      ensures api.log == log + All(t) && api.world == Replay(w, All(t))
    {
      hide All, LegalReconciliation, HalfSettled, Settled, TwoPatches, SnapshotOf, Replay, Progressing;
      ghost var progress := Patch(Progressing(w.status), r.progress);
      ghost var begin := registering + progress;
      ReplayConcat(w, registering, progress);
      var ok := konfig.SetProgressing(r.progress);
      ghost var w1 := api.world;
      PatchStores(Replay(w, registering), Progressing(w.status), r.progress);
      if !ok {
        t := Trace(begin, [], [], [], Stopped);
        NothingReplayed(w1);
        HeadPhases(log, w, begin, Ending([], Stopped));
        return;
      }
      var result: Option<Snapshot>;
      ghost var body: Trace;
      result, body := ReconcileManifest(konfig, r);
      t := body.(begin := begin);
      HeadPhases(log, w, begin, body);
      PhasesIgnoreBegin(c, r, w1, body, t);
      if result.None? {
        return;
      }
      HealthyEndsBare(c, r, w1, body);
      var _ := konfig.SetReady(result.value, r.revision, r.first, r.second);
      t := t.(finish := LastPatches(r, w1, true, result.value));
      assert t.(finish := []) == body.(begin := begin);
      FinishPhase(log, w, body.(begin := begin), t.finish);
    }
  }
}
