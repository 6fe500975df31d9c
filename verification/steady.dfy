/** When a run touches no object at all. */
module Steady {
  import opened Objects
  import opened Snapshots
  import opened Cluster
  import opened Manager
  import opened Applying
  import opened Pruning
  import opened StatusProtocol
  import opened Controller
  import opened Runs
  import opened History
  import opened Coverage

  predicate NoTouch(xs: seq<Write>) {
    forall x :: x in xs ==> !x.Put? && !x.Remove?
  }

  /** Whatever runs of the manifest meet, they touch no object. */
  ghost predicate Quiet(c: Config, w: World, objects: seq<Object>) {
    forall r, t ::
      ValidRun(r) && r.build == Built(objects) && !r.spec.deleting && LegalRun(c, r, w, t) ==> NoTouch(All(t))
  }

  predicate NothingExposed(c: Config, w: World, objects: seq<Object>) {
    forall i: nat :: i < |objects| ==> !Exposed(Gently(c), c.hash.manifest(objects), w.objs, objects, i)
  }

  /** Pruning from the stored snapshot comes across nothing to delete. */
  ghost predicate NothingDoomed(c: Config, w: World, checksum: string) {
    forall k :: k in w.objs && RecordedIn(w.status.snapshot, k) ==> !Doomed(Gently(c), w.objs[k], checksum)
  }

  /** No object to patch; and nothing to prune, unless runs stop before. */
  ghost predicate NothingToDo(c: Config, w: World, objects: seq<Object>) {
    var sum := c.hash.manifest(objects);
    NothingExposed(c, w, objects)
    && (NoneStuck(Gently(c), sum, w.objs, objects, |objects|) ==> NothingDoomed(c, w, sum))
  }

  // ------------------------------------------------------ nothing to do, nothing done

  /** Outside apply and pruning a run writes to its Konfiguration only. */
  lemma TouchPhases(c: Config, r: Run, w: World, t: Trace)
    requires ValidRun(r) && LegalRun(c, r, w, t)
    ensures NoTouch(t.begin) && NoTouch(t.finish)
  {
    hide LegalReconciliation, LegalDeletion, WithReadiness, LastPatches, SnapshotOf;
    var w1 := Replay(w, t.begin);
    FinishTouchesNothing(c, r, w1, t);
    if LegalReconciliation(c, r, w1, t.(finish := [])) && t.exit.Healthy? {
      HealthyEndsBare(c, r, w1, t.(finish := []));
      LastPatchesTouchNothing(r, w1, true, SnapshotOf(r.build.objects, c.hash.manifest));
    }
  }

  lemma LastPatchesTouchNothing(r: Run, w: World, up: bool, snapshot: Snapshot)
    ensures NoTouch(LastPatches(r, w, up, snapshot))
  {
    hide HalfSettled, Settled;
  }

  lemma FinishTouchesNothing(c: Config, r: Run, w: World, t: Trace)
    requires ValidRun(r)
    ensures LegalReconciliation(c, r, w, t) || LegalDeletion(c, r, w, t) ==> NoTouch(t.finish)
  {
    hide Rehearsal, Performance, PruningLog, Collected, CollectionSucceeds, WithReadiness, LastPatches, SnapshotOf;
    if r.build.Built? {
      LastPatchesTouchNothing(r, Replay(w, t.apply), false, SnapshotOf(r.build.objects, c.hash.manifest));
    }
  }

  /** The manifest, when no object is exposed. */
  lemma {:induction false} UnexposedOutcome(m: Settings, w: World, objects: seq<Object>, checksum: string, dryRun: bool,
                                            scripts: seq<Script>, n: nat)
    requires |scripts| == |objects| && n <= |objects|
    requires forall i: nat :: i < n ==> !Exposed(m, checksum, w.objs, objects, i)
    ensures var out := OutcomeUpTo(m, w, objects, checksum, dryRun, scripts, n);
            out.writes == [] && (out.ok ==> NoneStuck(m, checksum, w.objs, objects, n))
  {
    hide ObjectOutcome, Current, Stuck;
    if n > 0 {
      UnexposedOutcome(m, w, objects, checksum, dryRun, scripts, n - 1);
      NothingReplayed(w);
      NotPatched(m, w, objects[n - 1], checksum, dryRun, scripts[n - 1]);
      assert !Exposed(m, checksum, w.objs, objects, n - 1);
    }
  }

  lemma UnexposedPerformance(c: Config, r: Run, w: World, objects: seq<Object>)
    requires ValidRun(r) && r.build == Built(objects) && NothingExposed(c, w, objects)
    ensures Performance(c, r, w).writes == []
    ensures Rehearsal(c, r, w).ok && Performance(c, r, w).ok ==>
              NoneStuck(Gently(c), c.hash.manifest(objects), w.objs, objects, |objects|)
  {
    hide Exposed, OutcomeUpTo;
    var m, sum := SettingsOf(c, r.spec), c.hash.manifest(objects);
    forall i: nat | i < |objects| ensures !Exposed(m, sum, w.objs, objects, i) {
      ExposedGently(c, r.spec, sum, w.objs, objects, i);
    }
    UnexposedOutcome(m, w, objects, sum, true, r.dry, |objects|);
    UnexposedOutcome(m, w, objects, sum, false, r.wet, |objects|);
    NoneStuckGently(c, r.spec, sum, w.objs, objects);
  }

  lemma NoneStuckGently(c: Config, spec: Spec, checksum: string, objs: map<Key, Live>, objects: seq<Object>)
    ensures NoneStuck(SettingsOf(c, spec), checksum, objs, objects, |objects|) <==>
            NoneStuck(Gently(c), checksum, objs, objects, |objects|)
  {
    forall o: Object ensures Stuck(SettingsOf(c, spec), checksum, objs, o) <==> Stuck(Gently(c), checksum, objs, o) {
      assert Stamp(SettingsOf(c, spec), checksum, o) == Stamp(Gently(c), checksum, o);
    }
  }

  ghost function Gone(k: Key): World -> bool {
    (w: World) => k !in w.objs || w.objs[k].terminating
  }

  /** What pruning deletes first is gone when it ends. */
  lemma GoneForGood(m: Settings, checksum: string, w: World, xs: seq<Write>)
    requires xs != [] && Steps(w, xs, PruneRule(m, checksum))
    ensures (xs[0].Put? || xs[0].Remove?) && Gone(xs[0].key)(Replay(w, xs))
  {
    hide Matches, ShouldNotPrune, IsOrphaned;
    var k, w1 := xs[0].key, Do(w, xs[0]);
    forall v, x | Gone(k)(v) && PruneRule(m, checksum)(v, x) ensures Gone(k)(Do(v, x)) {
    }
    LawfulLogKeeps(w1, xs[1..], PruneRule(m, checksum), Gone(k));
    assert xs[1..][..|xs| - 1] == xs[1..];
    assert Gone(k)(Replay(w1, xs[1..]));
  }

  /** What pruning does is there to be seen. */
  lemma PruningShows(m: Settings, checksum: string, w: World, xs: seq<Write>)
    requires Steps(w, xs, PruneRule(m, checksum)) && xs != []
    ensures Replay(w, xs).objs != w.objs && (xs[0].Put? || xs[0].Remove?)
  {
    hide Matches, ShouldNotPrune, IsOrphaned;
    GoneForGood(m, checksum, w, xs);
  }

  /** Nothing doomed, nothing pruned. */
  lemma NothingPruned(c: Config, spec: Spec, w: World, checksum: string, answers: PruneAnswers)
    requires NothingDoomed(c, w, checksum) && !spec.deleting
    ensures Collected(SettingsOf(c, spec), checksum, w, answers) == w
  {
    hide Lists, Matches, ShouldNotPrune, Pruned;
    var m := SettingsOf(c, spec);
    if w.status.snapshot.Some? {
      var last := w.status.snapshot.value;
      PruneDeletesExactly(m, checksum, w.objs, answers, last);
      forall k ensures !Killed(m, checksum, w.objs, answers, last, k) {
        if k in w.objs && RecordedIn(w.status.snapshot, k) {
          assert !Doomed(Gently(c), w.objs[k], checksum);
        }
      }
      assert (set k | k in w.objs && Killed(m, checksum, w.objs, answers, last, k)) == {};
      ReapNothing(w.objs);
    }
  }

  lemma QuietRun(c: Config, r: Run, w: World, t: Trace, objects: seq<Object>)
    requires ValidRun(r) && r.build == Built(objects) && !r.spec.deleting && LegalRun(c, r, w, t)
    requires NothingToDo(c, w, objects)
    ensures NoTouch(All(t))
  {
    hide NothingDoomed, NothingExposed, NoneStuck, BodyRule, CollectionSucceeds, SettingsOf, LastPatches, WithReadiness;
    hide Rehearsal, Performance;
    TouchPhases(c, r, w, t);
    if t.apply + t.prune != [] {
      BeginningObeys(c, r, [], w);
      var w1, sum := Begun(w, t), c.hash.manifest(objects);
      AlikeBegun(c, w, w1, objects);
      UnexposedPerformance(c, r, w1, objects);
      NothingReplayed(w1);
      SnapshotChecksum(objects, c.hash.manifest);
      assert t.apply == [] && t.prune != [];
      NothingPruned(c, r.spec, w1, sum, r.prune);
      PruningShows(SettingsOf(c, r.spec), sum, w1, t.prune);
      assert false;
    }
  }

  lemma AlikeBegun(c: Config, w: World, w1: World, objects: seq<Object>)
    requires w1.objs == w.objs && w1.status.snapshot == w.status.snapshot
    ensures NothingExposed(c, w1, objects) <==> NothingExposed(c, w, objects)
    ensures NothingDoomed(c, w1, c.hash.manifest(objects)) <==> NothingDoomed(c, w, c.hash.manifest(objects))
  {
  }

  // ------------------------------------------------------ something to do, and done

  /** The first exposed object. */
  lemma {:induction false} FirstExposed(c: Config, w: World, objects: seq<Object>, i: nat) returns (j: nat)
    requires i < |objects| && Exposed(Gently(c), c.hash.manifest(objects), w.objs, objects, i)
    ensures j <= i && Exposed(Gently(c), c.hash.manifest(objects), w.objs, objects, j)
    ensures forall k: nat :: k < j ==> !Exposed(Gently(c), c.hash.manifest(objects), w.objs, objects, k)
    decreases i
  {
    if k: nat :| k < i && Exposed(Gently(c), c.hash.manifest(objects), w.objs, objects, k) {
      j := FirstExposed(c, w, objects, k);
    } else {
      j := i;
    }
  }

  /** Up to there nothing is written, and nothing fails that does not have to. */
  lemma {:induction false} UpToFirst(m: Settings, w: World, objects: seq<Object>, checksum: string, i: nat, n: nat)
    requires n <= i < |objects| && NoneStuck(m, checksum, w.objs, objects, i)
    requires forall k: nat :: k < i ==> !Exposed(m, checksum, w.objs, objects, k)
    ensures OutcomeUpTo(m, w, objects, checksum, false, ScriptsUpTo(m, checksum, objects, i), n)
         == Outcome([], [], true)
  {
    hide ObjectOutcome, Stamp, Current, Stuck;
    if n > 0 {
      UpToFirst(m, w, objects, checksum, i, n - 1);
      NothingReplayed(w);
      assert !Exposed(m, checksum, w.objs, objects, n - 1);
      SilentExactlyWhenCurrent(m, w, objects[n - 1], checksum, false, ScriptsUpTo(m, checksum, objects, i)[n - 1]);
    }
  }

  lemma ExposedOutcome(m: Settings, w: World, objects: seq<Object>, checksum: string, i: nat)
    requires i < |objects| && Exposed(m, checksum, w.objs, objects, i)
    requires forall k: nat :: k < i ==> !Exposed(m, checksum, w.objs, objects, k)
    ensures var out := ManifestOutcome(m, w, objects, checksum, false, ScriptsUpTo(m, checksum, objects, i));
            !out.ok && |out.writes| == 1 && out.writes[0].Put?
  {
    hide ObjectOutcome, Stamp, Stuck, Current, Applied;
    var scripts := ScriptsUpTo(m, checksum, objects, i);
    UpToFirst(m, w, objects, checksum, i, i);
    NothingReplayed(w);
    OneScripted(m, w, objects[i], checksum, true);
    StopsAtError(m, w, objects, checksum, false, scripts, i + 1, |objects|);
  }

  /** A run that patches an exposed object. */
  lemma ExposedIsTouched(c: Config, w: World, objects: seq<Object>, i: nat)
    requires !w.finalizer.Released? && i < |objects|
    requires Exposed(Gently(c), c.hash.manifest(objects), w.objs, objects, i)
    ensures !Quiet(c, w, objects)
  {
    hide Exposed, LegalRun, ManifestOutcome;
    var j := FirstExposed(c, w, objects, i);
    var r, sum := RunUpTo(c, objects, j), c.hash.manifest(objects);
    forall v: World | v.objs == w.objs ensures !Performance(c, r, v).ok {
      ExposedOutcome(Gently(c), v, objects, sum, j);
    }
    var t := RunUpToIsLegal(c, w, objects, j);
    ExposedOutcome(Gently(c), Begun(w, t), objects, sum, j);
    assert t.apply[0] in All(t);
  }

  /** The deletion of doomed objects, one by one. */
  lemma {:induction false} DeleteAll(m: Settings, checksum: string, w: World, dead: set<Key>) returns (xs: seq<Write>)
    requires forall k :: k in dead ==> k in w.objs && Doomed(m, w.objs[k], checksum)
    ensures PruningLog(m, checksum, w, xs, w.(objs := Reaped(w.objs, dead)))
    decreases dead
  {
    hide Doomed, PruningLog, Reaped, DeleteWrites;
    if dead == {} {
      ReapNothing(w.objs);
      EmptyPruningLog(m, checksum, w);
      xs := [];
    } else {
      var k :| k in dead;
      var before := DeleteAll(m, checksum, w, dead - {k});
      var more := OneMoreDelete(m, checksum, w, dead - {k}, before, k, Done);
      assert dead - {k} + {k} == dead;
      xs := before + more;
    }
  }

  /** A run in which every request succeeds, with pruning on. */
  function PruningRun(c: Config, objects: seq<Object>): (r: Run)
    ensures ValidRun(r) && r.build == Built(objects) && SettingsOf(c, r.spec) == Gently(c)
    ensures forall s :: s in r.wet ==> !s.getFails
  {
    var scripts := seq(|objects|, _ => Script(false, []));
    Run(Spec(0, false, false, true, false, false, false), "", Done, Fetched,
        Dependencies.Gate("", [], (n: nat) => map[]), Done, true, Built(objects), scripts, scripts,
        PruneAnswers((ns: string, g: GVK) => false, (ns: string, k: Key) => Done), true,
        Failed(false), Failed(false), Failed(false))
  }

  /** With every object current it prunes whatever it comes across. */
  lemma PruningRunPrunes(c: Config, w: World, objects: seq<Object>, k: Key)
    requires k in w.objs && RecordedIn(w.status.snapshot, k)
    requires Doomed(Gently(c), w.objs[k], c.hash.manifest(objects))
    ensures var r, sum := PruningRun(c, objects), c.hash.manifest(objects);
            && CollectionSucceeds(Gently(c), sum, w, r.prune)
            && Collected(Gently(c), sum, w, r.prune).objs != w.objs
  {
    hide Lists, Doomed;
    var r, sum, last := PruningRun(c, objects), c.hash.manifest(objects), w.status.snapshot.value;
    PruneDeletesExactly(Gently(c), sum, w.objs, r.prune, last);
    assert Killed(Gently(c), sum, w.objs, r.prune, last, k);
    ReapedNotDoomed(Gently(c), sum, w.objs, set j | j in w.objs && Killed(Gently(c), sum, w.objs, r.prune, last, j));
  }

  lemma CollectionLog(m: Settings, checksum: string, w: World, answers: PruneAnswers) returns (xs: seq<Write>)
    ensures PruningLog(m, checksum, w, xs, Collected(m, checksum, w, answers))
  {
    hide PruningLog, Doomed, Lists;
    if w.status.snapshot.Some? {
      var last := w.status.snapshot.value;
      PruneDeletesExactly(m, checksum, w.objs, answers, last);
      xs := DeleteAll(m, checksum, w, set k | k in w.objs && Killed(m, checksum, w.objs, answers, last, k));
    } else {
      EmptyPruningLog(m, checksum, w);
      xs := [];
    }
  }

  /** A run that prunes a doomed object. */
  lemma DoomedIsTouched(c: Config, w: World, objects: seq<Object>, k: Key)
    requires !w.finalizer.Released? && NothingExposed(c, w, objects)
    requires NoneStuck(Gently(c), c.hash.manifest(objects), w.objs, objects, |objects|)
    requires k in w.objs && RecordedIn(w.status.snapshot, k)
    requires Doomed(Gently(c), w.objs[k], c.hash.manifest(objects))
    ensures !Quiet(c, w, objects)
  {
    hide Doomed, RecordedIn, BodyRule, NoneStuck, Collected, CollectionSucceeds, PruningLog, OutcomeUpTo, Current;
    var r, sum := PruningRun(c, objects), c.hash.manifest(objects);
    var begin := Registering(r, w) + Patch(Progressing(w.status), r.progress);
    BeginningObeys(c, r, [], w);
    var w1 := Replay(w, begin);
    CurrentManifest(c, w1, objects, r);
    PruningRunPrunes(c, w1, objects, k);
    var log := CollectionLog(Gently(c), sum, w1, r.prune);
    SnapshotChecksum(objects, c.hash.manifest);
    NothingReplayed(w1);
    var finish := LastPatches(r, w1, true, SnapshotOf(objects, c.hash.manifest));
    var t := Trace(begin, [], log, finish, Healthy);
    assert LegalRun(c, r, w, t);
    LogShows(Gently(c), sum, w1, log, Collected(Gently(c), sum, w1, r.prune));
    assert log[0] in All(t);
  }

  lemma LogShows(m: Settings, checksum: string, w: World, xs: seq<Write>, w': World)
    requires PruningLog(m, checksum, w, xs, w') && w' != w
    ensures xs != [] && (xs[0].Put? || xs[0].Remove?)
  {
  }

  lemma CurrentManifest(c: Config, w: World, objects: seq<Object>, r: Run)
    requires ValidRun(r) && r.build == Built(objects) && SettingsOf(c, r.spec) == Gently(c) && !r.spec.validate
    requires forall s :: s in r.wet ==> !s.getFails
    requires NothingExposed(c, w, objects)
    requires NoneStuck(Gently(c), c.hash.manifest(objects), w.objs, objects, |objects|)
    ensures Rehearsal(c, r, w).ok && Performance(c, r, w) == Outcome([], [], true)
  {
    hide Current, Stuck, OutcomeUpTo;
    var m, sum := Gently(c), c.hash.manifest(objects);
    forall i: nat | i < |objects| ensures Current(m, sum, w.objs, objects[i]) {
      assert !Exposed(m, sum, w.objs, objects, i);
    }
    SilentManifest(m, w, objects, sum, false, r.wet, |objects|);
  }

  lemma NoRunTouches(c: Config, r: Run, w: World, t: Trace)
    requires ValidRun(r) && LegalRun(c, r, w, t) && w.finalizer.Released?
    ensures NoTouch(All(t))
  {
    NoRunAnyMore(c, r, w, t);
  }

  /** No run of a manifest touches any object, whatever it meets, exactly when
      there is nothing to do, or no Konfiguration any more. */
  lemma QuietExactly(c: Config, w: World, objects: seq<Object>)
    ensures Quiet(c, w, objects) <==> w.finalizer.Released? || NothingToDo(c, w, objects)
  {
    hide LegalRun, Exposed, NoneStuck, Doomed, NoTouch, All, RecordedIn;
    if w.finalizer.Released? {
      forall r, t | ValidRun(r) && LegalRun(c, r, w, t) ensures NoTouch(All(t)) {
        NoRunTouches(c, r, w, t);
      }
    } else if NothingToDo(c, w, objects) {
      forall r, t | ValidRun(r) && r.build == Built(objects) && !r.spec.deleting && LegalRun(c, r, w, t)
        ensures NoTouch(All(t))
      {
        QuietRun(c, r, w, t, objects);
      }
    } else if i: nat :|
      i < |objects| && Exposed(Gently(c), c.hash.manifest(objects), w.objs, objects, i)
    {
      ExposedIsTouched(c, w, objects, i);
    } else {
      var k :| k in w.objs && RecordedIn(w.status.snapshot, k)
        && Doomed(Gently(c), w.objs[k], c.hash.manifest(objects));
      DoomedIsTouched(c, w, objects, k);
    }
  }

  // ---------------------------------------------------------------- steady state

  lemma CurrentIsSpared(m: Settings, checksum: string, objs: map<Key, Live>, o: Object)
    requires LabelSound(m.diff) && !m.deleting && Current(m, checksum, objs, o)
    ensures !Doomed(m, objs[Id(o)], checksum)
  {
    StampKeepsId(m, checksum, o);
    LabelledCarries(m, checksum, o, objs);
    assert CHECKSUM_LABEL in GcLabels(m.owner, checksum);
  }

  /** Where the manifest is current and nothing else is tracked that pruning
      would come across, no further run touches any object. */
  lemma SteadyState(c: Config, w: World, objects: seq<Object>)
    requires LabelSound(c.diff)
    requires forall o :: o in objects ==> Current(Gently(c), c.hash.manifest(objects), w.objs, o)
    requires forall k :: k in w.objs && Tracked(c, w.objs[k]) && RecordedIn(w.status.snapshot, k) ==>
              InManifest(k, objects)
    ensures Quiet(c, w, objects)
  {
    hide Current, Quiet, Matches, ShouldNotPrune;
    var m, sum := Gently(c), c.hash.manifest(objects);
    forall k | k in w.objs && RecordedIn(w.status.snapshot, k) ensures !Doomed(m, w.objs[k], sum) {
      if Doomed(m, w.objs[k], sum) {
        assert Tracked(c, w.objs[k]);
        var o :| o in objects && Id(o) == k;
        CurrentIsSpared(m, sum, w.objs, o);
      }
    }
    QuietExactly(c, w, objects);
  }
}
