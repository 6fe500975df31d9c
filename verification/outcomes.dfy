/** How runs end, told by what they are asked for and what they meet. */
module Outcomes {
  import opened Json
  import opened Objects
  import opened Snapshots
  import opened Cluster
  import opened Manager
  import opened Applying
  import opened Pruning
  import opened StatusProtocol
  import opened Controller
  import opened Runs
  import opened History
  import opened Steady

  // ------------------------------------------------------------------- the apply

  /** Without validation the manifest is applied at once, under the settings of
      the spec. With it, a dry run comes first: its failure is the run's, and
      where it finds nothing to change, nothing more is asked of the server. */
  lemma ApplyByValidation(c: Config, r: Run, w: World)
    requires ValidRun(r) && r.build.Built?
    ensures var objects := r.build.objects;
            var sum, m := c.hash.manifest(objects), Settings(c.owner, r.spec.force, r.spec.deleting, c.hash, c.diff);
            var dry, wet := ManifestOutcome(m, w, objects, sum, true, r.dry),
                            ManifestOutcome(m, w, objects, sum, false, r.wet);
            && (!r.spec.validate ==> Rehearsal(c, r, w).ok && Performance(c, r, w) == wet)
            && (r.spec.validate ==> Rehearsal(c, r, w).ok == dry.ok)
            && (r.spec.validate && dry.changes != [] ==> Performance(c, r, w) == wet)
            && (r.spec.validate && (forall i :: 0 <= i < |objects| ==>
                                      !r.dry[i].getFails && Current(m, sum, w.objs, objects[i])) ==>
                  Rehearsal(c, r, w).ok && Performance(c, r, w) == Outcome([], [], true))
  {
    hide OutcomeUpTo, Current;
    var m, objects := SettingsOf(c, r.spec), r.build.objects;
    SilentManifest(m, w, objects, c.hash.manifest(objects), true, r.dry, |objects|);
  }

  /** An apply that got through, or was skipped, has every object live with what
      the manifest says. */
  lemma PerformedIsLive(c: Config, r: Run, w: World, o: Object)
    requires ValidRun(r) && r.build.Built? && o in r.build.objects && Distinct(r.build.objects) && DiffSound(c.diff)
    requires forall x :: x in r.build.objects ==> Plain(x)
    requires Rehearsal(c, r, w).ok && Performance(c, r, w).ok
    ensures LiveWith(SettingsOf(c, r.spec), c.hash.manifest(r.build.objects), o,
                     Replay(w, Performance(c, r, w).writes).objs)
  {
    hide OutcomeUpTo, LiveWith, EmbeddedLive, Current, DiffSound, Plain, Distinct;
    var m, objects, sum := SettingsOf(c, r.spec), r.build.objects, c.hash.manifest(r.build.objects);
    if r.spec.validate && Rehearsal(c, r, w).changes == [] {
      var i :| 0 <= i < |objects| && objects[i] == o;
      SilentManifest(m, w, objects, sum, true, r.dry, |objects|);
      NothingReplayed(w);
      CurrentSettled(m, sum, w.objs, o);
      EmbeddedIsLiveWith(m, sum, o, w.objs);
    } else {
      AppliedIsLive(m, w, objects, sum, r.wet, o);
    }
  }

  /** And so it is when the run stores its snapshot, whatever was pruned in
      between. */
  lemma StoredManifestIsLive(c: Config, r: Run, w: World, t: Trace, cut: nat, o: Object)
    requires ValidRun(r) && LegalRun(c, r, w, t) && Stores(t) && |Body(t)| < cut <= |All(t)| && DiffSound(c.diff)
    requires r.build.Built? ==> o in r.build.objects && Distinct(r.build.objects)
    requires r.build.Built? ==> forall x :: x in r.build.objects ==> Plain(x)
    ensures r.build.Built?
    ensures LiveWith(SettingsOf(c, r.spec), c.hash.manifest(r.build.objects), o, Replay(w, All(t)[..cut]).objs)
  {
    hide LegalRun, LiveWith, Rehearsal, Performance, Collected, CollectionSucceeds, LastPatches, SnapshotOf;
    hide Plain, Distinct, DiffSound;
    StoredMeansAccomplished(c, r, w, t);
    StoredCut(c, r, w, t, cut);
    PerformedIsLive(c, r, Begun(w, t), o);
    LiveWithOutlives(SettingsOf(c, r.spec), c.hash.manifest(r.build.objects), Performed(w, t), r.prune, o);
  }

  lemma LiveWithOutlives(m: Settings, checksum: string, w: World, answers: PruneAnswers, o: Object)
    requires !m.deleting && LiveWith(m, checksum, o, w.objs)
    ensures LiveWith(m, checksum, o, Collected(m, checksum, w, answers).objs)
  {
    hide Holds, Pruned;
    var labels := map[NAME_LABEL := m.owner.name, NAMESPACE_LABEL := m.owner.ns, CHECKSUM_LABEL := checksum];
    assert CHECKSUM_LABEL in labels;
    if w.status.snapshot.Some? {
      NeverPruned(m, checksum, w.objs, answers, w.status.snapshot.value, Id(o));
    }
  }

  // --------------------------------------------------------------- who gets there

  /** Nothing stands between the run and its manifest. */
  predicate GetsToBuild(r: Run, w: World) {
    && (w.finalizer.Registered? || (w.finalizer.Missing? && r.finalizer.Done?))
    && !r.spec.deleting && !r.spec.suspend && r.source.Fetched? && Dependencies.Open(r.dependencies)
    && r.progress.Done?
  }

  /** Objects are touched by a run that gets to a manifest, and by one that
      deletes, has pruning on, is not suspended, and has its client. */
  lemma TouchesNeed(c: Config, r: Run, w: World, t: Trace)
    requires ValidRun(r) && LegalRun(c, r, w, t) && !NoTouch(All(t))
    ensures || (GetsToBuild(r, w) && r.build.Built?)
            || (r.spec.deleting && r.spec.prune && !r.spec.suspend && r.kubeClient)
  {
    hide Rehearsal, Performance, PruningLog, Collected, CollectionSucceeds, WithReadiness, SnapshotOf, LastPatches;
    TouchPhases(c, r, w, t);
  }

  /** A suspended run registers the finalizer, if it is missing, and no more. */
  lemma SuspendedRunRests(c: Config, r: Run, w: World, t: Trace)
    requires ValidRun(r) && LegalRun(c, r, w, t) && r.spec.suspend && !r.spec.deleting
    ensures All(t) == [] || (All(t) == [AddFinalizer] && w.finalizer.Missing?)
  {
  }

  /** A run comes to storing a snapshot exactly when it gets to a manifest, its
      dry run and its apply succeed, and so does pruning if it is on. It is an
      unhealthy one exactly when there are health checks that fail. */
  lemma StoresExactly(c: Config, r: Run, w: World, t: Trace)
    requires ValidRun(r) && LegalRun(c, r, w, t)
    ensures Stores(t) <==>
              && GetsToBuild(r, w) && r.build.Built?
              && Rehearsal(c, r, Begun(w, t)).ok && Performance(c, r, Begun(w, t)).ok
              && (r.spec.prune ==>
                    CollectionSucceeds(SettingsOf(c, r.spec), c.hash.manifest(r.build.objects), Performed(w, t),
                                       r.prune))
    ensures Stores(t) ==> (t.exit.Unhealthy? <==> r.spec.healthChecks && !r.up)
  {
    hide Rehearsal, Performance, PruningLog, Collected, CollectionSucceeds, WithReadiness, SnapshotOf, LastPatches;
    if r.build.Built? {
      SnapshotChecksum(r.build.objects, c.hash.manifest);
    }
  }

  /** What a run that stores its snapshot reports in the end: not ready exactly
      when there are health checks that fail, and else ready. */
  lemma LastReportExactly(c: Config, r: Run, w: World, t: Trace)
    requires ValidRun(r) && LegalRun(c, r, w, t) && Stores(t) && r.first.Done? && r.second.Done?
    ensures Replay(w, All(t)).status.ready == Some(if r.spec.healthChecks && !r.up then IsFalse else IsTrue)
    ensures Replay(w, All(t)).status.healthy ==
              if !r.spec.healthChecks then None else Some(if r.up then IsTrue else IsFalse)
  {
    hide LegalRun;
    StoresExactly(c, r, w, t);
    if t.exit.Healthy? {
      ReadyRevisionsAgree(c, r, w, t);
    } else {
      UnhealthyRevisions(c, r, w, t);
    }
  }

  /** Ready is never reported while a health check fails. */
  lemma ReadyMeansHealthy(c: Config, r: Run, w: World, t: Trace, n: nat)
    requires ValidRun(r) && LegalRun(c, r, w, t) && n < |All(t)|
    requires All(t)[n].Save? && All(t)[n].status.ready == Some(IsTrue)
    ensures !r.spec.healthChecks || r.up
  {
    hide LegalRun, SnapshotOf;
    ReadyOnlyPastTheGate(c, r, w, t, n);
    StoresExactly(c, r, w, t);
    assert All(t) == Body(t) + t.finish;
    assert All(t)[n] in t.finish;
    if t.exit.Unhealthy? {
      UnhealthyFinish(c, r, w, t);
    }
  }

  lemma UnhealthyFinish(c: Config, r: Run, w: World, t: Trace)
    requires ValidRun(r) && LegalRun(c, r, w, t) && t.exit.Unhealthy?
    ensures forall x :: x in t.finish ==> x.Save? && x.status.ready != Some(IsTrue)
  {
    hide LegalRun, SnapshotOf, Rehearsal, Performance, CollectionSucceeds;
    StoredMeansAccomplished(c, r, w, t);
    ProgressReported(c, r, w, t);
    CollectedKeepsStatus(SettingsOf(c, r.spec), Checksum(c, r), Performed(w, t), r.prune);
  }

  // --------------------------------------------------------------------- failures

  /** A run that gives up reports so with one patch: not ready, at its
      generation, with its revision attempted unless that is empty; all else
      stays. It does so exactly when the source or a dependency is missing, or,
      past those, the build, the dry run, the apply or pruning fails. */
  lemma GivesUpExactly(c: Config, r: Run, w: World, t: Trace)
    requires ValidRun(r) && LegalRun(c, r, w, t)
    ensures t.exit.Unready? <==>
              && (w.finalizer.Registered? || (w.finalizer.Missing? && r.finalizer.Done?))
              && !r.spec.deleting && !r.spec.suspend
              && (|| r.source.Unfetched? || !Dependencies.Open(r.dependencies)
                  || (r.progress.Done? && !r.build.NoWorkspace? && !Stores(t)))
    ensures t.exit.Unready? && (r.first.Done? || r.first.landed) ==>
              var before, s := w.status, Replay(w, All(t)).status;
              var revision := if r.source.Unfetched? then r.source.revision else r.revision;
              && s == before.(ready := Some(IsFalse), observedGeneration := r.spec.generation,
                              lastAttemptedRevision := s.lastAttemptedRevision)
              && s.lastAttemptedRevision == if revision == "" then before.lastAttemptedRevision else revision
  {
    hide Rehearsal, Performance, PruningLog, Collected, CollectionSucceeds, SnapshotOf, LastPatches, WithReadiness;
    if t.exit.Unready? && Landed(r.first) {
      LastReport(c, r, w, t);
    }
  }

  lemma LastReport(c: Config, r: Run, w: World, t: Trace)
    requires ValidRun(r) && LegalRun(c, r, w, t) && t.exit.Unready? && Landed(r.first)
    ensures var revision := if r.source.Unfetched? then r.source.revision else r.revision;
            var before, s := w.status, Replay(w, All(t)).status;
            && s == before.(ready := Some(IsFalse), observedGeneration := r.spec.generation,
                            lastAttemptedRevision := s.lastAttemptedRevision)
            && s.lastAttemptedRevision == if revision == "" then before.lastAttemptedRevision else revision
  {
    hide LegalRun;
    var revision := if r.source.Unfetched? then r.source.revision else r.revision;
    GivingUpFinish(c, r, w, t);
    ReplayPhases(w, t);
    PatchStores(Cleaned(w, t), WithReadiness(w.status, r.spec, IsFalse, revision), r.first);
  }

  lemma GivingUpFinish(c: Config, r: Run, w: World, t: Trace)
    requires ValidRun(r) && LegalRun(c, r, w, t) && t.exit.Unready?
    ensures var revision := if r.source.Unfetched? then r.source.revision else r.revision;
            t.finish == Patch(WithReadiness(w.status, r.spec, IsFalse, revision), r.first)
  {
    hide Rehearsal, Performance, PruningLog, Collected, CollectionSucceeds, SnapshotOf, LastPatches, BodyRule;
    if Admitted(r, w) {
      BeginningObeys(c, r, [], w);
      if r.build.Built? {
        PerformanceKeepsStatus(c, r, Begun(w, t));
      }
    }
  }

  // -------------------------------------------------------------------- deletions

  /** A run that deletes asks for the finalizer's release exactly when it need
      not prune, as pruning is off or suspended, or pruned without failure; what
      it prunes, it prunes as of the stored snapshot, against no manifest. */
  lemma DeletionExactly(c: Config, r: Run, w: World, t: Trace)
    requires ValidRun(r) && LegalRun(c, r, w, t) && r.spec.deleting
    requires w.finalizer.Registered? || (w.finalizer.Missing? && r.finalizer.Done?)
    ensures var m := Settings(c.owner, r.spec.force, true, c.hash, c.diff);
            var prunes := r.spec.prune && !r.spec.suspend;
            && Begun(w, t).objs == w.objs && Begun(w, t).status == w.status
            && (DropFinalizer in All(t) <==>
                  && (r.release.Done? || r.release.landed)
                  && (prunes ==> r.kubeClient && CollectionSucceeds(m, "", Begun(w, t), r.prune)))
            && (prunes && r.kubeClient ==> Replay(w, All(t)).objs == Collected(m, "", Begun(w, t), r.prune).objs)
            && (!prunes || !r.kubeClient ==> Replay(w, All(t)).objs == w.objs)
  {
    hide PruneRule, Collected, CollectionSucceeds;
    var m := SettingsOf(c, r.spec);
    RegisteringObeys(c, r, [], w);
    ReplayPhases(w, t);
    NothingReplayed(Begun(w, t));
    NothingReplayed(Cleaned(w, t));
    OneStep(Cleaned(w, t), DropFinalizer, (v: World, x: Write) => true);
    if t.prune != [] {
      PruningDropsNothing(m, "", Begun(w, t), t.prune);
    }
  }
}
