/** When the stored snapshot alone accounts for all a run may leave. */
module Coverage {
  import opened Json
  import opened Objects
  import opened Cluster
  import opened Manager
  import opened Applying
  import opened StatusProtocol
  import opened Controller
  import opened Runs
  import opened History

  /** The manifest itself exempts the object from pruning. */
  predicate Exempt(o: Object) {
    ShouldNotPrune(Fresh(o))
  }

  /** The live object that holds `o` and nothing else. */
  function Fresh(o: Object): Live {
    Live(o.labels, o.annotations, o.meta, o.rest, {}, false)
  }

  /** Pruning from the stored snapshot would come across the object, or it is
      exempt from pruning, or being deleted. */
  ghost predicate Safe(w: World, o: Object) {
    RecordedIn(w.status.snapshot, Id(o)) || Exempt(o) || Terminating(w.objs, Id(o))
  }

  ghost predicate AllSafe(w: World, objects: seq<Object>) {
    forall o :: o in objects ==> Safe(w, o)
  }

  /** Applied before, but the diff cannot compare it: reconciling stops here. */
  predicate Stuck(m: Settings, checksum: string, objs: map<Key, Live>, o: Object) {
    && Id(o) in objs
    && LAST_APPLIED in objs[Id(o)].annotations
    && objs[Id(o)].annotations[LAST_APPLIED] == Stamp(m, checksum, o).annotations[LAST_APPLIED]
    && m.diff(Stamp(m, checksum, o), objs[Id(o)]) == DiffFailed
  }

  predicate NoneStuck(m: Settings, checksum: string, objs: map<Key, Live>, objects: seq<Object>, n: nat)
    requires n <= |objects|
  {
    forall j :: 0 <= j < n ==> !Stuck(m, checksum, objs, objects[j])
  }

  /** A run can come to patch the object: reconciling does not stop at it, nor
      before it, and it is not current. */
  predicate Exposed(m: Settings, checksum: string, objs: map<Key, Live>, objects: seq<Object>, i: nat)
    requires i < |objects|
  {
    !Current(m, checksum, objs, objects[i]) && NoneStuck(m, checksum, objs, objects, i + 1)
  }

  /** The settings of a run that does not force anything. */
  function Gently(c: Config): Settings {
    Settings(c.owner, false, false, c.hash, c.diff)
  }

  /** What runs can come to patch is safe. */
  ghost predicate ExposedAreSafe(c: Config, w: World, objects: seq<Object>) {
    forall i: nat :: i < |objects| && Exposed(Gently(c), c.hash.manifest(objects), w.objs, objects, i) ==>
      Safe(w, objects[i])
  }

  /** Whatever a run of the manifest meets, and wherever it is cut short before
      it stores a snapshot, the one that is stored covers everything tracked. */
  ghost predicate CoverageSurvives(c: Config, w: World, objects: seq<Object>) {
    forall r, t, cut: nat ::
      ValidRun(r) && r.build == Built(objects) && LegalRun(c, r, w, t) && cut <= |Body(t)| ==>
        Covered(c, Replay(w, All(t)[..cut]), iset{}, [])
  }

  // ------------------------------------------------------------ safe objects do

  lemma ExemptStays(m: Settings, checksum: string, o: Object, l: Live)
    requires Exempt(o) && Embeds(Stamp(m, checksum, o), l)
    ensures ShouldNotPrune(l)
  {
    var s := Stamp(m, checksum, o);
    assert SKIP_PRUNING !in GcLabels(m.owner, checksum);
    assert SKIP_PRUNING in o.labels ==> SKIP_PRUNING in s.labels && s.labels[SKIP_PRUNING] == o.labels[SKIP_PRUNING];
    assert SKIP_PRUNING in o.annotations ==>
        SKIP_PRUNING in s.annotations && s.annotations[SKIP_PRUNING] == o.annotations[SKIP_PRUNING];
  }

  /** What is being deleted in `w` is so in `v`. */
  ghost predicate StillGoing(w: World, v: World) {
    forall k :: Terminating(w.objs, k) ==> Terminating(v.objs, k)
  }

  ghost function Surviving(c: Config, w: World): World -> bool {
    (v: World) => v.status.snapshot == w.status.snapshot && StillGoing(w, v) && Covered(c, v, iset{}, [])
  }

  /** The patch of a safe object. */
  lemma PutSurvives(c: Config, m: Settings, checksum: string, o: Object, w: World, v: World, l: Live)
    requires Safe(w, o) && Surviving(c, w)(v)
    requires Embeds(Stamp(m, checksum, o), l) && l.terminating == Terminating(v.objs, Id(o))
    ensures Surviving(c, w)(Do(v, Put(Id(o), l)))
  {
    hide Embeds, Stamp, Matches, ShouldNotPrune, RecordedIn, Exempt, InManifest;
    if Exempt(o) {
      ExemptStays(m, checksum, o, l);
    }
  }

  /** The deletion of an object, to recreate or to prune it. */
  lemma DeleteSurvives(c: Config, w: World, v: World, x: Write)
    requires (x.Put? || x.Remove?) && [x] == DeleteWrites(v.objs, x.key) && Surviving(c, w)(v)
    ensures Surviving(c, w)(Do(v, x))
  {
    hide Matches, ShouldNotPrune, RecordedIn, InManifest;
  }

  lemma StepSurvives(c: Config, r: Run, objects: seq<Object>, w: World, v: World, x: Write)
    requires BodyRule(c, r, objects)(v, x) && AllSafe(w, objects) && Surviving(c, w)(v)
    ensures Surviving(c, w)(Do(v, x))
  {
    hide Embeds, Stamp, Doomed, RecordedIn, Tracked, InManifest, LawfulSave, Safe, DeleteWrites;
    if x.Put? || x.Remove? {
      var m, sum := SettingsOf(c, r.spec), Checksum(c, r);
      if [x] == DeleteWrites(v.objs, x.key) {
        DeleteSurvives(c, w, v, x);
      } else {
        var o :| o in objects && WritesObject(m, sum, o, v.objs, x);
        PutSurvives(c, m, sum, o, w, v, x.live);
      }
    }
  }

  /** A run whose apply keeps to safe objects leaves nothing that the stored
      snapshot does not cover. */
  lemma SafeSurvives(c: Config, r: Run, w: World, t: Trace, objects: seq<Object>, cut: nat)
    requires ValidRun(r) && LegalRun(c, r, w, t) && AppliesOnly(c, r, objects, Begun(w, t), t) && cut <= |Body(t)|
    requires AllSafe(w, objects) && Covered(c, w, iset{}, [])
    ensures Covered(c, Replay(w, All(t)[..cut]), iset{}, [])
  {
    hide BodyRule, LegalRun, Steps, Covered, Safe;
    var inv, rule := Surviving(c, w), BodyRule(c, r, objects);
    RunObeysWith(c, r, objects, w, t);
    BodyObeys(c, r, objects, w, t);
    forall v, x | inv(v) && rule(v, x) ensures inv(Do(v, x)) {
      StepSurvives(c, r, objects, w, v, x);
    }
    LawfulLogKeeps(w, Body(t), rule, inv);
    assert All(t)[..cut] == Body(t)[..cut];
    assert inv(Replay(w, Body(t)[..cut]));
  }

  // -------------------------------------------------- only exposed ones are patched

  lemma AlikeAt(m: Settings, checksum: string, a: map<Key, Live>, b: map<Key, Live>, o: Object)
    requires SameAt(a, b, Id(o))
    ensures Current(m, checksum, a, o) <==> Current(m, checksum, b, o)
    ensures Stuck(m, checksum, a, o) <==> Stuck(m, checksum, b, o)
  {
  }

  /** Of distinct objects each is met as it was before the apply. */
  lemma MetAsBefore(m: Settings, w: World, objects: seq<Object>, checksum: string, scripts: seq<Script>, n: nat)
    requires |scripts| == |objects| && n < |objects| && Distinct(objects)
    ensures var here := Replay(w, OutcomeUpTo(m, w, objects, checksum, false, scripts, n).writes);
            && (Current(m, checksum, w.objs, objects[n]) <==> Current(m, checksum, here.objs, objects[n]))
            && (Stuck(m, checksum, w.objs, objects[n]) <==> Stuck(m, checksum, here.objs, objects[n]))
  {
    hide Current, Stuck, SameAt, Distinct, NotAmong;
    DistinctNotAmong(objects, n);
    AppliesThereOnly(m, w, objects, checksum, scripts, n, Id(objects[n]));
    AlikeAt(m, checksum, w.objs, Replay(w, OutcomeUpTo(m, w, objects, checksum, false, scripts, n).writes).objs,
            objects[n]);
  }

  /** A current object is left alone, and reconciling stops at a stuck one. */
  lemma NotPatched(m: Settings, w: World, o: Object, checksum: string, dryRun: bool, script: Script)
    ensures var out := ObjectOutcome(m, w, o, checksum, dryRun, script);
            && (Current(m, checksum, w.objs, o) || Stuck(m, checksum, w.objs, o) ==> out.writes == [])
            && (Stuck(m, checksum, w.objs, o) ==> !out.ok)
  {
  }

  lemma {:induction false} WritesExposed(m: Settings, w: World, objects: seq<Object>, checksum: string,
                                         scripts: seq<Script>, some: seq<Object>, n: nat)
    requires |scripts| == |objects| && n <= |objects| && Distinct(objects)
    requires forall i: nat :: i < |objects| && Exposed(m, checksum, w.objs, objects, i) ==> objects[i] in some
    ensures var out := OutcomeUpTo(m, w, objects, checksum, false, scripts, n);
            && Steps(w, out.writes, ApplyRule(m, checksum, some))
            && (out.ok ==> NoneStuck(m, checksum, w.objs, objects, n))
  {
    hide ObjectOutcome, Current, Stuck, ApplyRule, Distinct, OnlyAt;
    if n > 0 {
      WritesExposed(m, w, objects, checksum, scripts, some, n - 1);
      var done := OutcomeUpTo(m, w, objects, checksum, false, scripts, n - 1);
      if done.ok {
        var out := OneMoreObject(m, w, objects, checksum, false, scripts, n - 1);
        var here, o := Replay(w, done.writes), objects[n - 1];
        MetAsBefore(m, w, objects, checksum, scripts, n - 1);
        NotPatched(m, here, o, checksum, false, scripts[n - 1]);
        if Current(m, checksum, w.objs, o) || Stuck(m, checksum, w.objs, o) {
          assert done.writes + [] == done.writes;
        } else {
          assert Exposed(m, checksum, w.objs, objects, n - 1);
          ObjectWrites(m, here, o, checksum, false, scripts[n - 1], some);
          StepsConcat(w, done.writes, out.writes, ApplyRule(m, checksum, some));
        }
      }
    }
  }

  /** The first `n` objects without those that no run patches. */
  function Patchable(m: Settings, checksum: string, objs: map<Key, Live>, objects: seq<Object>,
                     n: nat): (s: seq<Object>)
    requires n <= |objects|
    ensures forall o :: o in s <==> exists i: nat :: i < n && objects[i] == o && Exposed(m, checksum, objs, objects, i)
  {
    if n == 0 then []
    else
      Patchable(m, checksum, objs, objects, n - 1)
      + if Exposed(m, checksum, objs, objects, n - 1) then [objects[n - 1]] else []
  }

  /** Forcing makes no difference to what is exposed. */
  lemma ExposedGently(c: Config, spec: Spec, checksum: string, objs: map<Key, Live>, objects: seq<Object>, i: nat)
    requires i < |objects|
    ensures Exposed(SettingsOf(c, spec), checksum, objs, objects, i) <==> Exposed(Gently(c), checksum, objs, objects, i)
  {
    forall o: Object
      ensures Current(SettingsOf(c, spec), checksum, objs, o) <==> Current(Gently(c), checksum, objs, o)
      ensures Stuck(SettingsOf(c, spec), checksum, objs, o) <==> Stuck(Gently(c), checksum, objs, o)
    {
      assert Stamp(SettingsOf(c, spec), checksum, o) == Stamp(Gently(c), checksum, o);
    }
  }

  lemma AppliedManifest(c: Config, r: Run, w: World, t: Trace, objects: seq<Object>)
    requires ValidRun(r) && r.build == Built(objects) && LegalRun(c, r, w, t) && t.apply != []
    ensures Begun(w, t).objs == w.objs && Checksum(c, r) == c.hash.manifest(objects)
    ensures t.apply == ManifestOutcome(SettingsOf(c, r.spec), Begun(w, t), objects, Checksum(c, r), false, r.wet).writes
  {
    hide LegalCleanup, ManifestOutcome, BodyRule, SettingsOf;
    BeginningObeys(c, r, [], w);
  }

  lemma AppliesExposed(c: Config, r: Run, w: World, t: Trace, objects: seq<Object>, some: seq<Object>)
    requires ValidRun(r) && r.build == Built(objects) && LegalRun(c, r, w, t) && Distinct(objects)
    requires some == Patchable(Gently(c), c.hash.manifest(objects), w.objs, objects, |objects|)
    ensures AppliesOnly(c, r, some, Begun(w, t), t)
  {
    hide LegalRun, Exposed, Distinct, BodyRule, ApplyRule, SettingsOf;
    if t.apply != [] {
      var w1, m, sum := Begun(w, t), SettingsOf(c, r.spec), c.hash.manifest(objects);
      AppliedManifest(c, r, w, t, objects);
      forall i: nat | i < |objects| && Exposed(m, sum, w1.objs, objects, i) ensures objects[i] in some {
        ExposedGently(c, r.spec, sum, w1.objs, objects, i);
      }
      WritesExposed(m, w1, objects, sum, r.wet, some, |objects|);
    }
  }

  // ------------------------------------------------------- and unsafe ones do not

  /** The patch of an object is taken, but that of `last` is reported to have
      failed. */
  function ScriptFor(m: Settings, checksum: string, o: Object, last: bool): Script {
    var p := Fresh(Stamp(m, checksum, o));
    Script(false, [if last then Refused(Some(p)) else Accepted(p)])
  }

  function ScriptsUpTo(m: Settings, checksum: string, objects: seq<Object>, i: nat): (s: seq<Script>)
    ensures |s| == |objects|
    ensures forall j :: 0 <= j < |objects| ==> s[j] == ScriptFor(m, checksum, objects[j], j == i)
  {
    seq(|objects|, j requires 0 <= j < |objects| => ScriptFor(m, checksum, objects[j], j == i))
  }

  lemma OneScripted(m: Settings, w: World, o: Object, checksum: string, last: bool)
    requires !Stuck(m, checksum, w.objs, o)
    ensures var out := ObjectOutcome(m, w, o, checksum, false, ScriptFor(m, checksum, o, last));
            var s := Stamp(m, checksum, o);
            if Current(m, checksum, w.objs, o) then out.ok && out.writes == []
            else out.ok == !last && out.writes == [Put(Id(o), Applied(w.objs, s, Fresh(s)))]
  {
    hide Applied;
    StampKeepsId(m, checksum, o);
  }

  /** The patch that is taken leaves the stamped object, as terminating as it
      was. */
  lemma OneTaken(m: Settings, w: World, o: Object, checksum: string)
    ensures var s := Stamp(m, checksum, o);
            var w' := Replay(w, [Put(Id(o), Applied(w.objs, s, Fresh(s)))]);
            && Id(o) in w'.objs && w'.objs[Id(o)].labels == s.labels && w'.objs[Id(o)].annotations == s.annotations
            && StillGoing(w', w)
  {
    hide Stamp;
    var s := Stamp(m, checksum, o);
    StampKeepsId(m, checksum, o);
    AppliedEmbeds(w.objs, s, Fresh(s));
    OneStep(w, Put(Id(o), Applied(w.objs, s, Fresh(s))), (v: World, x: Write) => true);
  }

  /** All before the i-th object are taken, and nothing begins to terminate. */
  lemma {:induction false} ScriptedUpTo(m: Settings, w: World, objects: seq<Object>, checksum: string, i: nat, n: nat)
    requires n <= i < |objects| && Distinct(objects) && NoneStuck(m, checksum, w.objs, objects, i)
    ensures var out := OutcomeUpTo(m, w, objects, checksum, false, ScriptsUpTo(m, checksum, objects, i), n);
            out.ok && StillGoing(Replay(w, out.writes), w)
  {
    hide ObjectOutcome, Applied, Stamp, Stuck, Current, Distinct, Terminating;
    var scripts := ScriptsUpTo(m, checksum, objects, i);
    if n == 0 {
      NothingReplayed(w);
    } else {
      ScriptedUpTo(m, w, objects, checksum, i, n - 1);
      var out := OneMoreObject(m, w, objects, checksum, false, scripts, n - 1);
      var here := Replay(w, OutcomeUpTo(m, w, objects, checksum, false, scripts, n - 1).writes);
      MetAsBefore(m, w, objects, checksum, scripts, n - 1);
      OneScripted(m, here, objects[n - 1], checksum, false);
      OneTaken(m, here, objects[n - 1], checksum);
      NothingReplayed(here);
    }
  }

  /** The object that was taken last is live and has what the manifest says. */
  lemma ScriptedManifest(m: Settings, w: World, objects: seq<Object>, checksum: string, i: nat)
    requires i < |objects| && Distinct(objects) && Exposed(m, checksum, w.objs, objects, i)
    ensures var out := ManifestOutcome(m, w, objects, checksum, false, ScriptsUpTo(m, checksum, objects, i));
            var objs, k, s := Replay(w, out.writes).objs, Id(objects[i]), Stamp(m, checksum, objects[i]);
            && !out.ok && k in objs && objs[k].labels == s.labels && objs[k].annotations == s.annotations
            && (objs[k].terminating ==> Terminating(w.objs, k))
  {
    hide ObjectOutcome, Applied, Stamp, Stuck, Current, Distinct;
    var scripts := ScriptsUpTo(m, checksum, objects, i);
    ScriptedUpTo(m, w, objects, checksum, i, i);
    var out := OneMoreObject(m, w, objects, checksum, false, scripts, i);
    var here := Replay(w, OutcomeUpTo(m, w, objects, checksum, false, scripts, i).writes);
    MetAsBefore(m, w, objects, checksum, scripts, i);
    OneScripted(m, here, objects[i], checksum, true);
    OneTaken(m, here, objects[i], checksum);
    StopsAtError(m, w, objects, checksum, false, scripts, i + 1, |objects|);
  }

  /** Then it is tracked, unless exempt or being deleted. */
  lemma StampedIsTracked(c: Config, m: Settings, checksum: string, o: Object, l: Live)
    requires c.owner == m.owner && !Exempt(o) && !l.terminating
    requires l.labels == Stamp(m, checksum, o).labels && l.annotations == Stamp(m, checksum, o).annotations
    ensures Tracked(c, l)
  {
    var s := Stamp(m, checksum, o);
    assert SKIP_PRUNING !in GcLabels(m.owner, checksum);
    assert NAME_LABEL in s.labels && NAMESPACE_LABEL in s.labels;
  }

  /** A run that applies the manifest up to its i-th object. */
  function RunUpTo(c: Config, objects: seq<Object>, i: nat): (r: Run)
    ensures ValidRun(r) && r.build == Built(objects) && SettingsOf(c, r.spec) == Gently(c)
  {
    var scripts := ScriptsUpTo(Gently(c), c.hash.manifest(objects), objects, i);
    Run(Spec(0, false, false, false, false, false, false), "", Done, Fetched,
        Dependencies.Gate("", [], (n: nat) => map[]), Done, true, Built(objects), scripts, scripts,
        PruneAnswers((ns: string, g: GVK) => false, (ns: string, k: Key) => Done), true,
        Failed(false), Failed(false), Failed(false))
  }

  /** That run, when the apply fails there. */
  lemma RunUpToIsLegal(c: Config, w: World, objects: seq<Object>, i: nat) returns (t: Trace)
    requires i < |objects| && !w.finalizer.Released?
    requires forall v: World :: v.objs == w.objs ==> !Performance(c, RunUpTo(c, objects, i), v).ok
    ensures var r := RunUpTo(c, objects, i);
            && LegalRun(c, r, w, t) && t.finish == [] && t.prune == [] && !Stores(t)
            && Begun(w, t).objs == w.objs && Begun(w, t).status.snapshot == w.status.snapshot
            && t.apply == Performance(c, r, Begun(w, t)).writes
  {
    hide Performance, ScriptsUpTo, BodyRule;
    var r := RunUpTo(c, objects, i);
    var begin := Registering(r, w) + Patch(Progressing(w.status), r.progress);
    BeginningObeys(c, r, [], w);
    t := Trace(begin, Performance(c, r, Replay(w, begin)).writes, [], [], Unready);
  }

  /** So one exposed object that is not safe can be left behind unrecorded. */
  lemma UnsafeShows(c: Config, w: World, objects: seq<Object>, i: nat)
    requires i < |objects| && !w.finalizer.Released? && Distinct(objects)
    requires Exposed(Gently(c), c.hash.manifest(objects), w.objs, objects, i) && !Safe(w, objects[i])
    ensures !CoverageSurvives(c, w, objects)
  {
    hide LegalRun, ManifestOutcome, Exempt, Exposed, Distinct, Tracked, RecordedIn, Terminating;
    var r := RunUpTo(c, objects, i);
    forall v: World | v.objs == w.objs ensures !Performance(c, r, v).ok {
      ScriptedManifest(Gently(c), v, objects, c.hash.manifest(objects), i);
    }
    var t := RunUpToIsLegal(c, w, objects, i);
    var w1 := Begun(w, t);
    PerformanceKeepsStatus(c, r, w1);
    ScriptedManifest(Gently(c), w1, objects, c.hash.manifest(objects), i);
    ReplayPhases(w, t);
    NothingReplayed(Performed(w, t));
    assert All(t)[..|All(t)|] == All(t);
    var w', k := Replay(w, All(t)), Id(objects[i]);
    StampedIsTracked(c, Gently(c), c.hash.manifest(objects), objects[i], w'.objs[k]);
    assert !RecordedIn(w'.status.snapshot, k);
    assert !InManifest(k, []);
    assert !Covered(c, w', iset{}, []);
  }

  /** From a covered world, every run of a manifest of distinct objects keeps to
      what the stored snapshot covers exactly when each object that it can come
      to patch is recorded in it, exempt from pruning, or being deleted; or there
      is no Konfiguration any more. */
  lemma CoverageSurvivesExactly(c: Config, w: World, objects: seq<Object>)
    requires Covered(c, w, iset{}, []) && Distinct(objects)
    ensures CoverageSurvives(c, w, objects) <==> w.finalizer.Released? || ExposedAreSafe(c, w, objects)
  {
    hide LegalRun, Covered, Safe, Distinct, Exposed;
    if ExposedAreSafe(c, w, objects) || w.finalizer.Released? {
      var some := Patchable(Gently(c), c.hash.manifest(objects), w.objs, objects, |objects|);
      forall r, t, cut: nat | ValidRun(r) && r.build == Built(objects) && LegalRun(c, r, w, t) && cut <= |Body(t)|
        ensures Covered(c, Replay(w, All(t)[..cut]), iset{}, [])
      {
        if w.finalizer.Released? {
          NoRunAnyMore(c, r, w, t);
          NothingReplayed(w);
        } else {
          AppliesExposed(c, r, w, t, objects, some);
          SafeSurvives(c, r, w, t, some, cut);
        }
      }
    } else {
      var i: nat :| i < |objects| && Exposed(Gently(c), c.hash.manifest(objects), w.objs, objects, i)
        && !Safe(w, objects[i]);
      UnsafeShows(c, w, objects, i);
    }
  }

  /** Without any condition on the diff or the manifest, safe objects suffice. */
  lemma SafeManifestSurvives(c: Config, w: World, objects: seq<Object>)
    requires Covered(c, w, iset{}, []) && AllSafe(w, objects)
    ensures CoverageSurvives(c, w, objects)
  {
    hide LegalRun, Covered, Safe, AppliesOnly;
    forall r, t, cut: nat | ValidRun(r) && r.build == Built(objects) && LegalRun(c, r, w, t) && cut <= |Body(t)|
      ensures Covered(c, Replay(w, All(t)[..cut]), iset{}, [])
    {
      AppliesTouchable(c, r, w, t);
      SafeSurvives(c, r, w, t, Touchable(r, t), cut);
    }
  }

  lemma NoRunAnyMore(c: Config, r: Run, w: World, t: Trace)
    requires ValidRun(r) && LegalRun(c, r, w, t) && w.finalizer.Released?
    ensures All(t) == []
  {
  }
}
