/** Runs left alone are instances of runs among other writers. */
module Instances {
  import opened Json
  import opened Objects
  import opened Snapshots
  import opened Cluster
  import opened Manager
  import opened Applying
  import opened Pruning
  import opened StatusProtocol
  import opened Controller
  import opened Runs
  import opened History
  import opened Steady
  import opened Interference

  lemma {:induction false} WalkConcat(c: Config, r: Run, p: Point, xs: seq<Step>, ys: seq<Step>)
    requires AllLegal(c, r, p, xs) && AllLegal(c, r, Walk(c, r, p, xs), ys)
    ensures AllLegal(c, r, p, xs + ys) && Walk(c, r, p, xs + ys) == Walk(c, r, Walk(c, r, p, xs), ys)
    decreases xs
  {
    hide Legal, Next;
    if xs == [] {
      assert xs + ys == ys;
    } else {
      assert (xs + ys)[1..] == xs[1..] + ys;
      WalkConcat(c, r, Next(c, r, p, xs[0]), xs[1..], ys);
    }
  }

  lemma {:induction false} StepsPrefix(w: World, xs: seq<Write>, rule: (World, Write) -> bool, n: nat)
    requires Steps(w, xs, rule) && n <= |xs|
    ensures Steps(w, xs[..n], rule)
    decreases xs
  {
    if n > 0 {
      StepsPrefix(Do(w, xs[0]), xs[1..], rule, n - 1);
      assert xs[..n][1..] == xs[1..][..n - 1];
    }
  }

  /** Writes to the Konfiguration. */
  lemma {:induction false} Reports(c: Config, r: Run, objects: seq<Object>, p: Point, ys: seq<Write>)
    returns (xs: seq<Step>)
    requires Steps(p.w, ys, BodyRule(c, r, objects)) && NoTouch(ys)
    ensures AllLegal(c, r, p, xs) && Walk(c, r, p, xs) == p.(w := Replay(p.w, ys))
    decreases ys
  {
    hide LawfulSave, LawfulTouch, EarlySave;
    if ys == [] {
      xs := [];
    } else {
      assert ys[0] in ys;
      var p' := Next(c, r, p, Report(ys[0]));
      var rest := Reports(c, r, objects, p', ys[1..]);
      xs := [Report(ys[0])] + rest;
    }
  }

  /** Writes of the apply. */
  lemma {:induction false} Touches(c: Config, r: Run, p: Point, ys: seq<Write>) returns (xs: seq<Step>)
    requires !p.pruning && !p.stored && p.w.finalizer.Registered? && r.build.Built? && !r.spec.deleting
    requires Steps(p.w, ys, ApplyRule(SettingsOf(c, r.spec), Checksum(c, r), r.build.objects))
    ensures AllLegal(c, r, p, xs)
    ensures Walk(c, r, p, xs) == p.(w := Replay(p.w, ys), touched := p.touched || ys != [])
    decreases ys
  {
    hide ApplyRule;
    if ys == [] {
      xs := [];
    } else {
      TouchLeaves(SettingsOf(c, r.spec), Checksum(c, r), r.build.objects, p.w, ys[0]);
      var p' := Next(c, r, p, Touch(ys[0]));
      var rest := Touches(c, r, p', ys[1..]);
      xs := [Touch(ys[0])] + rest;
    }
  }

  lemma TouchLeaves(m: Settings, checksum: string, objects: seq<Object>, w: World, x: Write)
    requires ApplyRule(m, checksum, objects)(w, x)
    ensures Do(w, x).finalizer == w.finalizer
  {
  }

  /** What a set of listings comes across. */
  ghost predicate Reached(some: set<(string, GVK)>, k: Key) {
    exists s :: s in some && InListing(k, s.0, s.1)
  }

  /** Listings in some order. */
  lemma {:induction false} Listings(c: Config, r: Run, p: Point, some: set<(string, GVK)>) returns (xs: seq<Step>)
    requires p.w.finalizer.Registered? && !p.stored
    ensures AllLegal(c, r, p, xs)
    ensures var p' := Walk(c, r, p, xs);
            && p' == p.(pruning := p'.pruning, swept := p.swept + some, found := p'.found)
            && forall k :: k in p'.found <==>
                  k in p.found || (Reached(some, k) && DoomedAt(SettingsOf(c, r.spec), Checksum(c, r), p.w.objs, k))
    decreases some
  {
    hide Doomed, InListing;
    if some == {} {
      xs := [];
    } else {
      var s :| s in some;
      var p' := Next(c, r, p, List(s.0, s.1));
      var rest := Listings(c, r, p', some - {s});
      assert forall k :: Reached(some, k) <==> Reached(some - {s}, k) || InListing(k, s.0, s.1);
      assert p.swept + {s} + (some - {s}) == p.swept + some;
      xs := [List(s.0, s.1)] + rest;
    }
  }

  /** Deletions of what was found. */
  lemma {:induction false} Deletions(c: Config, r: Run, p: Point, ys: seq<Write>) returns (xs: seq<Step>)
    requires p.w.finalizer.Registered? && !p.stored
    requires Steps(p.w, ys, PruneRule(SettingsOf(c, r.spec), Checksum(c, r)))
    requires forall y :: y in ys && (y.Put? || y.Remove?) ==>
               DoomedAt(SettingsOf(c, r.spec), Checksum(c, r), p.w.objs, y.key) ==> y.key in p.found
    ensures AllLegal(c, r, p, xs)
    ensures var p' := Walk(c, r, p, xs);
            && p' == p.(w := Replay(p.w, ys), found := p'.found) && p'.w.status == p.w.status
            && forall k :: k in p'.found ==> k in p.found && SameAt(p.w.objs, p'.w.objs, k)
    decreases ys
  {
    hide Doomed, DeleteWrites;
    if ys == [] {
      xs := [];
    } else {
      var k, m, sum := ys[0].key, SettingsOf(c, r.spec), Checksum(c, r);
      assert ys[0] in ys;
      Isolation.OneDeletion(p.w, ys[0]);
      PruneLeaves(m, sum, p.w, ys[0]);
      var p' := Next(c, r, p, Delete(k, true));
      assert p'.w == Do(p.w, ys[0]);
      forall y | y in ys[1..] && (y.Put? || y.Remove?) && DoomedAt(m, sum, p'.w.objs, y.key)
        ensures y.key in p'.found
      {
        DeletionDooms(m, sum, p.w.objs, k, y.key);
        assert y in ys;
      }
      var rest := Deletions(c, r, p', ys[1..]);
      xs := [Delete(k, true)] + rest;
    }
  }

  lemma PruneLeaves(m: Settings, checksum: string, w: World, x: Write)
    requires PruneRule(m, checksum)(w, x)
    ensures Do(w, x) == w.(objs := Do(w, x).objs)
  {
  }

  lemma DeletionDooms(m: Settings, checksum: string, objs: map<Key, Live>, k: Key, j: Key)
    requires DoomedAt(m, checksum, Reaped(objs, {k}), j)
    ensures j != k && DoomedAt(m, checksum, objs, j)
  {
    hide Matches, ShouldNotPrune, IsOrphaned;
  }

  /** The listings that a snapshot leads to. */
  ghost function ListedSlots(s: Snapshot): (some: set<(string, GVK)>)
    ensures forall ns, g :: (ns, g) in some <==> Lists(s, ns, g)
  {
    var all := set i, k | 0 <= i < |s.entries| && k in s.entries[i].kinds && ReadKind(k, s.entries[i].kinds[k]).Some? ::
      (s.entries[i].ns, ReadKind(k, s.entries[i].kinds[k]).value);
    set x | x in all && Lists(s, x.0, x.1)
  }

  lemma ReachedIsRecorded(s: Snapshot, k: Key)
    ensures Reached(ListedSlots(s), k) <==> Recorded(s, k.ns, k.gvk)
  {
    hide Lists;
    var some := ListedSlots(s);
    if Lists(s, "", k.gvk) {
      assert InListing(k, ("", k.gvk).0, ("", k.gvk).1);
    }
    if Lists(s, k.ns, k.gvk) {
      assert InListing(k, (k.ns, k.gvk).0, (k.ns, k.gvk).1);
    }
  }

  /** What pruning deletes was doomed when it began, and is gone when it ends. */
  lemma {:induction false} PrunedKey(m: Settings, checksum: string, w: World, ys: seq<Write>, y: Write)
    requires Steps(w, ys, PruneRule(m, checksum)) && y in ys
    ensures (y.Put? || y.Remove?) && DoomedAt(m, checksum, w.objs, y.key) && Gone(y.key)(Replay(w, ys))
    decreases ys
  {
    hide Doomed, DeleteWrites;
    var w1 := Do(w, ys[0]);
    Isolation.OneDeletion(w, ys[0]);
    if y in ys[1..] {
      PrunedKey(m, checksum, w1, ys[1..], y);
      DeletionDooms(m, checksum, w.objs, ys[0].key, y.key);
    } else {
      GoneForGood(m, checksum, w, ys);
    }
  }

  /** And recorded. */
  lemma PrunedIsRecorded(m: Settings, checksum: string, w: World, ys: seq<Write>, answers: PruneAnswers, last: Snapshot,
                         y: Write)
    requires PruningLog(m, checksum, w, ys, w.(objs := Pruned(m, checksum, w.objs, answers, last))) && y in ys
    ensures (y.Put? || y.Remove?) && Recorded(last, y.key.ns, y.key.gvk)
  {
    hide Lists, Matches, ShouldNotPrune, IsOrphaned, Pruned, Steps;
    PrunedKey(m, checksum, w, ys, y);
    PruneDeletesExactly(m, checksum, w.objs, answers, last);
    assert Killed(m, checksum, w.objs, answers, last, y.key);
  }

  /** Pruning from a snapshot: its listings first, then the deletions, as far as
      they come. */
  lemma Prunings(c: Config, r: Run, p: Point, ys: seq<Write>, n: nat) returns (xs: seq<Step>)
    requires p.w.finalizer.Registered? && !p.stored && p.found == {} && n <= |ys|
    requires PruningLog(SettingsOf(c, r.spec), Checksum(c, r), p.w, ys,
                        Collected(SettingsOf(c, r.spec), Checksum(c, r), p.w, r.prune))
    ensures AllLegal(c, r, p, xs)
    ensures var p' := Walk(c, r, p, xs);
            && p' == p.(w := Replay(p.w, ys[..n]), pruning := p'.pruning, swept := p'.swept, found := p'.found)
            && (n == |ys| && CollectionSucceeds(SettingsOf(c, r.spec), Checksum(c, r), p.w, r.prune) ==>
                  AllSwept(p'.w.status.snapshot, p'.swept) && p'.found == {})
  {
    hide Doomed, Lists, PruneRule, Pruned, PruneSucceeds, Recorded, Reached, Legal, Next;
    var m, sum, rule := SettingsOf(c, r.spec), Checksum(c, r), PruneRule(SettingsOf(c, r.spec), Checksum(c, r));
    if p.w.status.snapshot.None? {
      if ys != [] {
        PruningShows(m, sum, p.w, ys);
      }
      xs := [];
    } else {
      var last := p.w.status.snapshot.value;
      var lists := Listings(c, r, p, ListedSlots(last));
      var p1 := Walk(c, r, p, lists);
      forall k ensures Reached(ListedSlots(last), k) <==> Recorded(last, k.ns, k.gvk) {
        ReachedIsRecorded(last, k);
      }
      forall y | y in ys[..n] ensures (y.Put? || y.Remove?) && Recorded(last, y.key.ns, y.key.gvk) {
        PrunedIsRecorded(m, sum, p.w, ys, r.prune, last, y);
      }
      StepsPrefix(p.w, ys, rule, n);
      var deletes := Deletions(c, r, p1, ys[..n]);
      WalkConcat(c, r, p, lists, deletes);
      xs := lists + deletes;
      var p' := Walk(c, r, p, xs);
      if n == |ys| && CollectionSucceeds(m, sum, p.w, r.prune) {
        assert ys[..n] == ys;
        forall k | k in p'.found ensures false {
          SuccessfulPruneIsComplete(m, sum, p.w.objs, r.prune, last, k);
        }
      }
    }
  }

  /** The last patches. */
  lemma Storings(c: Config, r: Run, p: Point, up: bool, n: nat) returns (xs: seq<Step>)
    requires r.build.Built? && !r.spec.deleting && p.w.status.ready == Some(IsUnknown)
    requires r.spec.prune ==> AllSwept(p.w.status.snapshot, p.swept) && p.found == {}
    requires n <= |LastPatches(r, p.w, up, SnapshotOf(r.build.objects, c.hash.manifest))|
    ensures var ys := LastPatches(r, p.w, up, SnapshotOf(r.build.objects, c.hash.manifest))[..n];
            AllLegal(c, r, p, xs) && Walk(c, r, p, xs).w == Replay(p.w, ys)
  {
    hide SnapshotOf, AllSwept, WithReadiness;
    var snapshot := SnapshotOf(r.build.objects, c.hash.manifest);
    var ys := LastPatches(r, p.w, up, snapshot);
    var half, whole := HalfSettled(p.w.status, r.spec, up, snapshot, r.revision),
        Settled(p.w.status, r.spec, up, snapshot, r.revision);
    if n == 0 {
      xs := [];
    } else {
      assert ys[..1] == [Save(half)];
      OneLegal(c, r, p, Store(half));
      OneStep(p.w, Save(half), (v: World, x: Write) => true);
      xs := [Store(half)];
      if n == 2 {
        var p1, last := Next(c, r, p, Store(half)), if up then Store(whole) else Report(Save(whole));
        assert ys[..2] == [Save(half)] + [Save(whole)];
        OneLegal(c, r, p1, last);
        WalkConcat(c, r, p, [Store(half)], [last]);
        OneStep(p1.w, Save(whole), (v: World, x: Write) => true);
        ReplayConcat(p.w, [Save(half)], [Save(whole)]);
        xs := [Store(half)] + [last];
      }
    }
  }

  lemma OneLegal(c: Config, r: Run, p: Point, x: Step)
    requires Legal(c, r, p, x)
    ensures AllLegal(c, r, p, [x]) && Walk(c, r, p, [x]) == Next(c, r, p, x)
  {
    hide Legal, Next;
    assert AllLegal(c, r, Next(c, r, p, x), []);
    assert Walk(c, r, Next(c, r, p, x), []) == Next(c, r, p, x);
  }

  lemma ApplyShape(c: Config, r: Run, w: World, t: Trace)
    requires ValidRun(r) && LegalRun(c, r, w, t) && t.apply != []
    ensures Begun(w, t).finalizer.Registered? && r.build.Built? && !r.spec.deleting
    ensures Steps(Begun(w, t), t.apply, ApplyRule(SettingsOf(c, r.spec), Checksum(c, r), r.build.objects))
  {
    hide LegalCleanup, Rehearsal, Performance, ApplyRule, BodyRule, WithReadiness;
    AppliesTouchable(c, r, w, t);
    BeginningObeys(c, r, [], w);
  }

  lemma PruneShape(c: Config, r: Run, w: World, t: Trace)
    requires ValidRun(r) && LegalRun(c, r, w, t) && (t.prune != [] || (Stores(t) && r.spec.prune))
    ensures Performed(w, t).finalizer.Registered?
    ensures var m, sum, w2 := SettingsOf(c, r.spec), Checksum(c, r), Performed(w, t);
            PruningLog(m, sum, w2, t.prune, Collected(m, sum, w2, r.prune))
  {
    hide Rehearsal, Performance, PruningLog, Collected, CollectionSucceeds, BodyRule, WithReadiness, SnapshotOf;
    hide LastPatches;
    RegisteringObeys(c, r, [], w);
    if r.spec.deleting {
      NothingReplayed(Begun(w, t));
    } else {
      BeginningObeys(c, r, [], w);
      SnapshotChecksum(r.build.objects, c.hash.manifest);
      PerformanceKeepsStatus(c, r, Begun(w, t));
    }
  }

  /** As far as the begin phase of a legal run. */
  lemma UpToBegin(c: Config, r: Run, w: World, t: Trace, n: nat) returns (xs: seq<Step>)
    requires ValidRun(r) && LegalRun(c, r, w, t) && n <= |t.begin|
    ensures AllLegal(c, r, Start(w), xs) && Walk(c, r, Start(w), xs) == Start(Replay(w, t.begin[..n]))
  {
    hide LegalRun, BodyRule;
    TouchPhases(c, r, w, t);
    BeginObeys(c, r, [], w, t);
    StepsPrefix(w, t.begin, BodyRule(c, r, []), n);
    xs := Reports(c, r, [], Start(w), t.begin[..n]);
  }

  /** As far as the apply. */
  lemma UpToApply(c: Config, r: Run, w: World, t: Trace, n: nat) returns (xs: seq<Step>)
    requires ValidRun(r) && LegalRun(c, r, w, t) && n <= |t.apply|
    ensures AllLegal(c, r, Start(w), xs)
    ensures var p := Walk(c, r, Start(w), xs); p == Start(Replay(Begun(w, t), t.apply[..n])).(touched := p.touched)
  {
    hide LegalRun, ApplyRule;
    var n0 := |t.begin|;
    assert t.begin[..n0] == t.begin;
    var first := UpToBegin(c, r, w, t, n0);
    if n == 0 {
      xs := first;
    } else {
      ApplyShape(c, r, w, t);
      StepsPrefix(Begun(w, t), t.apply, ApplyRule(SettingsOf(c, r.spec), Checksum(c, r), r.build.objects), n);
      var more := Touches(c, r, Start(Begun(w, t)), t.apply[..n]);
      WalkConcat(c, r, Start(w), first, more);
      xs := first + more;
    }
  }

  /** As far as pruning. */
  lemma UpToPrune(c: Config, r: Run, w: World, t: Trace, n: nat) returns (xs: seq<Step>)
    requires ValidRun(r) && LegalRun(c, r, w, t) && n <= |t.prune|
    ensures AllLegal(c, r, Start(w), xs)
    ensures var p := Walk(c, r, Start(w), xs);
            && p.w == Replay(Performed(w, t), t.prune[..n]) && !p.stored
            && (n == |t.prune| && Stores(t) && r.spec.prune ==>
                  AllSwept(p.w.status.snapshot, p.swept) && p.found == {})
  {
    hide LegalRun, AllSwept, CollectionSucceeds, Collected, PruningLog;
    var n0 := |t.apply|;
    assert t.apply[..n0] == t.apply;
    var first := UpToApply(c, r, w, t, n0);
    var p := Walk(c, r, Start(w), first);
    if t.prune == [] && !(Stores(t) && r.spec.prune) {
      xs := first;
    } else {
      PruneLogged(c, r, w, t);
      var more := Prunings(c, r, p, t.prune, n);
      WalkConcat(c, r, Start(w), first, more);
      xs := first + more;
    }
  }

  lemma PruneLogged(c: Config, r: Run, w: World, t: Trace)
    requires ValidRun(r) && LegalRun(c, r, w, t) && (t.prune != [] || (Stores(t) && r.spec.prune))
    ensures Performed(w, t).finalizer.Registered?
    ensures var m, sum, w2 := SettingsOf(c, r.spec), Checksum(c, r), Performed(w, t);
            && PruningLog(m, sum, w2, t.prune, Collected(m, sum, w2, r.prune))
            && (Stores(t) && r.spec.prune ==> CollectionSucceeds(m, sum, w2, r.prune))
  {
    hide LegalRun, PruningLog, Collected, CollectionSucceeds;
    PruneShape(c, r, w, t);
    if Stores(t) {
      StoredMeansAccomplished(c, r, w, t);
    }
  }

  /** As far as the last patches. */
  lemma UpToFinish(c: Config, r: Run, w: World, t: Trace, n: nat) returns (xs: seq<Step>)
    requires ValidRun(r) && LegalRun(c, r, w, t) && n <= |t.finish|
    ensures AllLegal(c, r, Start(w), xs) && Walk(c, r, Start(w), xs).w == Replay(Cleaned(w, t), t.finish[..n])
  {
    hide LegalRun, AllSwept, BodyRule, LastPatches, SnapshotOf, Rehearsal, Performance, Collected, CollectionSucceeds;
    var n0 := |t.prune|;
    assert t.prune[..n0] == t.prune;
    var first := UpToPrune(c, r, w, t, n0);
    var p := Walk(c, r, Start(w), first);
    var more: seq<Step>;
    if Stores(t) {
      StoredMeansAccomplished(c, r, w, t);
      ProgressReported(c, r, w, t);
      CollectedKeepsStatus(SettingsOf(c, r.spec), Checksum(c, r), Performed(w, t), r.prune);
      more := Storings(c, r, p, t.exit.Healthy?, n);
    } else {
      TouchPhases(c, r, w, t);
      RunObeys(c, r, w, t);
      CleanedPhases(w, t);
      StepsPrefix(p.w, t.finish, BodyRule(c, r, Touchable(r, t)), n);
      more := Reports(c, r, Touchable(r, t), p, t.finish[..n]);
    }
    WalkConcat(c, r, Start(w), first, more);
    xs := first + more;
  }

  lemma CleanedPhases(w: World, t: Trace)
    ensures Replay(w, t.begin + t.apply + t.prune) == Cleaned(w, t)
  {
    ReplayConcat(w, t.begin, t.apply);
    ReplayConcat(w, t.begin + t.apply, t.prune);
  }

  /** Every legal run, cut short anywhere, is one among no other writers. */
  lemma RunsAreInstances(c: Config, r: Run, w: World, t: Trace, cut: nat) returns (xs: seq<Step>)
    requires ValidRun(r) && LegalRun(c, r, w, t) && cut <= |All(t)|
    ensures AllLegal(c, r, Start(w), xs) && Walk(c, r, Start(w), xs).w == Replay(w, All(t)[..cut])
  {
    hide LegalRun, AllLegal, Walk;
    var a, b, d := |t.begin|, |t.begin + t.apply|, |t.begin + t.apply + t.prune|;
    if cut <= a {
      assert All(t)[..cut] == t.begin[..cut];
      xs := UpToBegin(c, r, w, t, cut);
    } else if cut <= b {
      assert All(t)[..cut] == t.begin + t.apply[..cut - a];
      ReplayConcat(w, t.begin, t.apply[..cut - a]);
      xs := UpToApply(c, r, w, t, cut - a);
    } else if cut <= d {
      assert All(t)[..cut] == t.begin + t.apply + t.prune[..cut - b];
      ReplayConcat(w, t.begin, t.apply);
      ReplayConcat(w, t.begin + t.apply, t.prune[..cut - b]);
      xs := UpToPrune(c, r, w, t, cut - b);
    } else {
      assert All(t)[..cut] == t.begin + t.apply + t.prune + t.finish[..cut - d];
      CleanedPhases(w, t);
      ReplayConcat(w, t.begin + t.apply + t.prune, t.finish[..cut - d]);
      xs := UpToFinish(c, r, w, t, cut - d);
    }
  }
}
