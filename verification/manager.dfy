/** The resource manager: server-side apply of a manifest, and pruning. */
module Manager {
  import opened Json
  import opened Objects
  import opened Snapshots
  import opened Cluster

  const LAST_APPLIED := "jsonnet.io/last-applied-checksum"
  const NAME_LABEL := "jsonnet.io/konfiguration-name"
  const NAMESPACE_LABEL := "jsonnet.io/konfiguration-namespace"
  const CHECKSUM_LABEL := "jsonnet.io/konfiguration-checksum"
  const SKIP_PRUNING := "jsonnet.io/prune"
  const PRUNING_DISABLED := "disabled"

  /** The Konfiguration objects belong to. */
  datatype Owner = Owner(name: string, ns: string)

  /** The two uses of SHA-1: of a manifest, and of one stamped object. */
  datatype Hasher = Hasher(manifest: seq<Object> -> string, single: Object -> string)

  datatype Verdict = UpToDate | Drifted | DiffFailed

  /** What the manager is created with, and the diff it calls. */
  datatype Settings = Settings(owner: Owner, force: bool, deleting: bool, hash: Hasher, diff: (Object, Live) -> Verdict)

  function SelectorLabels(owner: Owner): map<string, string> {
    map[NAME_LABEL := owner.name, NAMESPACE_LABEL := owner.ns]
  }

  function GcLabels(owner: Owner, checksum: string): map<string, string> {
    SelectorLabels(owner)[CHECKSUM_LABEL := checksum]
  }

  predicate Submap(a: map<string, string>, b: map<string, string>) {
    forall k :: k in a ==> k in b && b[k] == a[k]
  }

  predicate Matches(owner: Owner, labels: map<string, string>) {
    Submap(SelectorLabels(owner), labels)
  }

  function Labelled(m: Settings, checksum: string, o: Object): Object {
    o.(labels := o.labels + GcLabels(m.owner, checksum))
  }

  /** The copy of `o` that is applied: labelled, then annotated with the
      checksum of the labelled copy. */
  function Stamp(m: Settings, checksum: string, o: Object): Object {
    var labelled := Labelled(m, checksum, o);
    labelled.(annotations := labelled.annotations[LAST_APPLIED := m.hash.single(labelled)])
  }

  predicate Embeds(o: Object, l: Live) {
    && Submap(o.labels, l.labels) && Submap(o.annotations, l.annotations)
    && Embedded(Obj(o.meta - {"creationTimestamp"}), Obj(l.meta)) && Embedded(Obj(o.rest), Obj(l.rest))
  }

  // ------------------------------------------------ the environment's answers

  /** How the server ends one patch request. `Accepted` and a refusal that
      landed carry what the server would make of the object. */
  datatype PatchAnswer =
    | Accepted(proposal: Live)
    | Immutable(delete: Ack)                 // an invalid field value
    | Refused(landed: Option<Live>)          // any other error

  /** The answers met while reconciling one object; the patches end at the
      deadline. */
  datatype Script = Script(getFails: bool, patches: seq<PatchAnswer>)

  /** A server-side apply leaves an object that embeds the applied one: any
      proposal that does is taken. It never ends a deletion. */
  function Applied(objs: map<Key, Live>, o: Object, proposal: Live): Live {
    var l := if Embeds(o, proposal) then proposal else Live(o.labels, o.annotations, o.meta, o.rest, {}, false);
    l.(terminating := Id(o) in objs && objs[Id(o)].terminating)
  }

  // ------------------------------------------------------------------ applying

  datatype Verb = Created | Configured | Failing
  datatype Change = Change(key: Key, verb: Verb)
  datatype Outcome = Outcome(writes: seq<Write>, changes: seq<Change>, ok: bool)

  /** `serverSideApply` of a stamped object. */
  function SsaOutcome(m: Settings, w: World, o: Object, isNew: bool, dryRun: bool,
                      patches: seq<PatchAnswer>): (seq<Write>, bool)
    decreases patches
  {
    if patches == [] then ([], false)
    else
      match patches[0]
      case Accepted(p) => (if dryRun then [] else [Put(Id(o), Applied(w.objs, o, p))], true)
      case Refused(landed) =>
        (if dryRun || landed.None? then [] else [Put(Id(o), Applied(w.objs, o, landed.value))], false)
      case Immutable(ack) =>
        if isNew || !m.force then ([], false)
        else if dryRun then ([], true)
        else
          var deletes := IfLanded(ack, DeleteWrites(w.objs, Id(o)));
          if !ack.Done? then (deletes, false)
          else
            var (rest, ok) := SsaOutcome(m, Replay(w, deletes), o, isNew, dryRun, patches[1..]);
            (deletes + rest, ok)
  }

  /** `reconcileUnstructured`. */
  function ObjectOutcome(m: Settings, w: World, desired: Object, checksum: string, dryRun: bool,
                         script: Script): Outcome {
    var o := Stamp(m, checksum, desired);
    var key := Id(desired);
    if script.getFails then Outcome([], [Change(key, Failing)], false)
    else if key !in w.objs then
      var (writes, ok) := SsaOutcome(m, w, o, true, dryRun, script.patches);
      Outcome(writes, [Change(key, if ok then Created else Failing)], ok)
    else
      var found := w.objs[key];
      if && LAST_APPLIED in found.annotations
         && found.annotations[LAST_APPLIED] == o.annotations[LAST_APPLIED]
         && m.diff(o, found) != Drifted
      then
        if m.diff(o, found).DiffFailed? then Outcome([], [Change(key, Failing)], false) else Outcome([], [], true)
      else
        var (writes, ok) := SsaOutcome(m, w, o, false, dryRun, script.patches);
        Outcome(writes, [Change(key, if ok then Configured else Failing)], ok)
  }

  function Then(first: Outcome, rest: Outcome): Outcome {
    Outcome(first.writes + rest.writes, first.changes + rest.changes, rest.ok)
  }

  /** `ReconcileUnstructured` on the first `n` objects, up to the first error. */
  function OutcomeUpTo(m: Settings, w: World, objects: seq<Object>, checksum: string, dryRun: bool,
                       scripts: seq<Script>, n: nat): Outcome
    requires |scripts| == |objects| && n <= |objects|
    decreases n
  {
    if n == 0 then Outcome([], [], true)
    else
      var done := OutcomeUpTo(m, w, objects, checksum, dryRun, scripts, n - 1);
      if !done.ok then done
      else Then(done, ObjectOutcome(m, Replay(w, done.writes), objects[n - 1], checksum, dryRun, scripts[n - 1]))
  }

  function ManifestOutcome(m: Settings, w: World, objects: seq<Object>, checksum: string, dryRun: bool,
                           scripts: seq<Script>): Outcome
    requires |scripts| == |objects|
  {
    OutcomeUpTo(m, w, objects, checksum, dryRun, scripts, |objects|)
  }

  /** Nothing follows an error. */
  lemma {:induction false} StopsAtError(m: Settings, w: World, objects: seq<Object>, checksum: string, dryRun: bool,
                                        scripts: seq<Script>, i: nat, n: nat)
    requires |scripts| == |objects| && i <= n <= |objects|
    requires !OutcomeUpTo(m, w, objects, checksum, dryRun, scripts, i).ok
    ensures OutcomeUpTo(m, w, objects, checksum, dryRun, scripts, n)
              == OutcomeUpTo(m, w, objects, checksum, dryRun, scripts, i)
    decreases n
  {
    hide ObjectOutcome;
    if i < n {
      StopsAtError(m, w, objects, checksum, dryRun, scripts, i, n - 1);
    }
  }

  /** The next object starts where the first `n` left the server. */
  lemma OneMoreObject(m: Settings, w: World, objects: seq<Object>, checksum: string, dryRun: bool,
                      scripts: seq<Script>, n: nat) returns (out: Outcome)
    requires |scripts| == |objects| && n < |objects|
    requires OutcomeUpTo(m, w, objects, checksum, dryRun, scripts, n).ok
    ensures var done := OutcomeUpTo(m, w, objects, checksum, dryRun, scripts, n);
            var next := OutcomeUpTo(m, w, objects, checksum, dryRun, scripts, n + 1);
            && out == ObjectOutcome(m, Replay(w, done.writes), objects[n], checksum, dryRun, scripts[n])
            && next == Then(done, out)
            && Replay(w, next.writes) == Replay(Replay(w, done.writes), out.writes)
            && (!next.ok ==> ManifestOutcome(m, w, objects, checksum, dryRun, scripts) == next)
  {
    var done := OutcomeUpTo(m, w, objects, checksum, dryRun, scripts, n);
    out := ObjectOutcome(m, Replay(w, done.writes), objects[n], checksum, dryRun, scripts[n]);
    ReplayConcat(w, done.writes, out.writes);
    if !out.ok {
      StopsAtError(m, w, objects, checksum, dryRun, scripts, n + 1, |objects|);
    }
  }

  // ------------------------------------------------------------------- pruning

  predicate ShouldNotPrune(l: Live) {
    || (SKIP_PRUNING in l.labels && l.labels[SKIP_PRUNING] == PRUNING_DISABLED)
    || (SKIP_PRUNING in l.annotations && l.annotations[SKIP_PRUNING] == PRUNING_DISABLED)
  }

  predicate IsOrphaned(m: Settings, l: Live, newChecksum: string) {
    m.deleting || !(CHECKSUM_LABEL in l.labels && l.labels[CHECKSUM_LABEL] == newChecksum)
  }

  /** A live object that pruning deletes when it comes across it. */
  predicate Doomed(m: Settings, l: Live, checksum: string) {
    Matches(m.owner, l.labels) && !ShouldNotPrune(l) && IsOrphaned(m, l, checksum) && !l.terminating
  }

  /** The answers to pruning's requests, by the namespace that was listed. */
  datatype PruneAnswers = PruneAnswers(listFails: (string, GVK) -> bool, deletes: (string, Key) -> Ack)

  predicate InListing(k: Key, ns: string, g: GVK) {
    k.gvk == g && (ns == "" || k.ns == ns)
  }

  /** `k` is deleted when its kind is listed in `ns`. */
  predicate Dies(m: Settings, checksum: string, l: Live, answers: PruneAnswers, ns: string, k: Key) {
    && Doomed(m, l, checksum) && (ns == "" || k.ns == ns)
    && !answers.listFails(ns, k.gvk) && Landed(answers.deletes(ns, k))
  }

  /** The listing succeeds, and so does every delete it leads to. */
  predicate SweepSucceeds(m: Settings, checksum: string, objs: map<Key, Live>, answers: PruneAnswers, ns: string,
                          g: GVK) {
    && !answers.listFails(ns, g)
    && forall k :: k in objs && InListing(k, ns, g) && Doomed(m, objs[k], checksum) ==> answers.deletes(ns, k).Done?
  }

  /** What listing `kinds` in `ns` kills. */
  function DeadIn(m: Settings, checksum: string, objs: map<Key, Live>, answers: PruneAnswers, ns: string,
                  kinds: seq<GVK>): set<Key> {
    set k | k in objs && k.gvk in kinds && Dies(m, checksum, objs[k], answers, ns, k)
  }

  /** What the listings of a snapshot in single namespaces kill. */
  ghost function DeadInNamespaces(m: Settings, checksum: string, objs: map<Key, Live>, answers: PruneAnswers,
                                  last: Snapshot): set<Key> {
    set k | k in objs && k.ns != "" && Lists(last, k.ns, k.gvk) && Dies(m, checksum, objs[k], answers, k.ns, k)
  }

  /** What its cluster-wide listings kill. */
  ghost function DeadClusterWide(m: Settings, checksum: string, objs: map<Key, Live>, answers: PruneAnswers,
                                 last: Snapshot): set<Key> {
    set k | k in objs && Lists(last, "", k.gvk) && Dies(m, checksum, objs[k], answers, "", k)
  }

  /** The objects between the two rounds of listings. */
  ghost function HalfPruned(m: Settings, checksum: string, objs: map<Key, Live>, answers: PruneAnswers,
                            last: Snapshot): map<Key, Live> {
    Reaped(objs, DeadInNamespaces(m, checksum, objs, answers, last))
  }

  ghost function Pruned(m: Settings, checksum: string, objs: map<Key, Live>, answers: PruneAnswers,
                        last: Snapshot): map<Key, Live> {
    var half := HalfPruned(m, checksum, objs, answers, last);
    Reaped(half, DeadClusterWide(m, checksum, half, answers, last))
  }

  /** No list and no delete request failed. */
  ghost predicate PruneSucceeds(m: Settings, checksum: string, objs: map<Key, Live>, answers: PruneAnswers,
                                last: Snapshot) {
    forall ns, g :: Lists(last, ns, g) ==>
      SweepSucceeds(m, checksum, if ns == "" then HalfPruned(m, checksum, objs, answers, last) else objs,
                    answers, ns, g)
  }

  /** A write of pruning deletes an object that is doomed there and then. */
  ghost function PruneRule(m: Settings, checksum: string): (World, Write) -> bool {
    (w: World, x: Write) =>
      && (x.Put? || x.Remove?) && x.key in w.objs && Doomed(m, w.objs[x.key], checksum)
      && [x] == DeleteWrites(w.objs, x.key)
  }

  /** `writes` takes `w` to `w'`, by deleting doomed objects only. */
  ghost predicate PruningLog(m: Settings, checksum: string, w: World, writes: seq<Write>, w': World) {
    Steps(w, writes, PruneRule(m, checksum)) && w' == Replay(w, writes)
  }

  /** Once dead an object is not doomed any more, and pruning leaves the other
      ones as they were. */
  lemma ReapedNotDoomed(m: Settings, checksum: string, objs: map<Key, Live>, dead: set<Key>)
    ensures var r := Reaped(objs, dead);
            forall k :: k in r && Doomed(m, r[k], checksum) <==> k in objs && k !in dead && Doomed(m, objs[k], checksum)
    ensures forall k :: k in Reaped(objs, dead) && k !in dead ==> Reaped(objs, dead)[k] == objs[k]
  {
  }

  lemma NextKind(m: Settings, checksum: string, objs: map<Key, Live>, answers: PruneAnswers, ns: string,
                 kinds: seq<GVK>, i: nat)
    requires i < |kinds|
    ensures var dead := DeadIn(m, checksum, objs, answers, ns, kinds[..i]);
            var r, g := Reaped(objs, dead), kinds[i];
            && Reaped(r, DeadIn(m, checksum, r, answers, ns, [g]))
                == Reaped(objs, DeadIn(m, checksum, objs, answers, ns, kinds[..i + 1]))
            && ((forall h :: h in kinds[..i] ==> SweepSucceeds(m, checksum, objs, answers, ns, h)) ==>
                  (SweepSucceeds(m, checksum, r, answers, ns, g) <==> SweepSucceeds(m, checksum, objs, answers, ns, g)))
  {
    var dead := DeadIn(m, checksum, objs, answers, ns, kinds[..i]);
    var r, g := Reaped(objs, dead), kinds[i];
    ReapedNotDoomed(m, checksum, objs, dead);
    ReapTwice(objs, dead, DeadIn(m, checksum, r, answers, ns, [g]));
    assert kinds[..i + 1] == kinds[..i] + [g];
    assert dead + DeadIn(m, checksum, r, answers, ns, [g]) == DeadIn(m, checksum, objs, answers, ns, kinds[..i + 1]);
  }

  /** What died in other namespaces does not matter here. */
  lemma OtherNamespace(m: Settings, checksum: string, objs: map<Key, Live>, answers: PruneAnswers, ns: string,
                       kinds: seq<GVK>, dead: set<Key>)
    requires ns != "" && forall k :: k in dead ==> k.ns != ns
    ensures DeadIn(m, checksum, Reaped(objs, dead), answers, ns, kinds) == DeadIn(m, checksum, objs, answers, ns, kinds)
    ensures forall g :: SweepSucceeds(m, checksum, Reaped(objs, dead), answers, ns, g) <==>
              SweepSucceeds(m, checksum, objs, answers, ns, g)
  {
    ReapedNotDoomed(m, checksum, objs, dead);
  }

  lemma EmptyPruningLog(m: Settings, checksum: string, w: World)
    ensures PruningLog(m, checksum, w, [], w)
  {
  }

  lemma PruningLogConcat(m: Settings, checksum: string, w0: World, xs: seq<Write>, w1: World, ys: seq<Write>, w2: World)
    requires PruningLog(m, checksum, w0, xs, w1) && PruningLog(m, checksum, w1, ys, w2)
    ensures PruningLog(m, checksum, w0, xs + ys, w2)
  {
    ReplayConcat(w0, xs, ys);
    StepsConcat(w0, xs, ys, PruneRule(m, checksum));
  }

  /** Deleting one more doomed object. */
  lemma OneMoreDelete(m: Settings, checksum: string, w: World, dead: set<Key>, writes: seq<Write>, k: Key, ack: Ack)
    returns (more: seq<Write>)
    requires PruningLog(m, checksum, w, writes, w.(objs := Reaped(w.objs, dead)))
    requires k in w.objs && k !in dead && Doomed(m, w.objs[k], checksum)
    ensures more == IfLanded(ack, DeleteWrites(Reaped(w.objs, dead), k))
    ensures var w' := w.(objs := Reaped(w.objs, if Landed(ack) then dead + {k} else dead));
            PruningLog(m, checksum, w, writes + more, w') && Replay(w.(objs := Reaped(w.objs, dead)), more) == w'
  {
    var here := w.(objs := Reaped(w.objs, dead));
    more := IfLanded(ack, DeleteWrites(here.objs, k));
    assert here.objs[k] == w.objs[k];
    DeleteReaps(here, k);
    ReapTwice(w.objs, dead, {k});
    assert Steps(here, more, PruneRule(m, checksum));
    PruningLogConcat(m, checksum, w, writes, here, more, Replay(here, more));
  }

  class Manager {
    const m: Settings
    const api: Api

    constructor (m: Settings, api: Api)
      ensures this.m == m && this.api == api
    {
      this.m, this.api := m, api;
    }

    method ServerSideApply(o: Object, isNew: bool, dryRun: bool, patches: seq<PatchAnswer>) returns (ok: bool)
      modifies api
      ensures var (writes, ok') := SsaOutcome(m, old(api.world), o, isNew, dryRun, patches);
              ok == ok' && api.log == old(api.log) + writes && api.world == Replay(old(api.world), writes)
      decreases patches
    {
      hide Applied, DeleteWrites;
      if patches == [] {
        return false;
      }
      match patches[0] {
        case Accepted(p) =>
          if !dryRun {
            api.Carry(Put(Id(o), Applied(api.world.objs, o, p)));
          }
          return true;
        case Refused(landed) =>
          if !dryRun && landed.Some? {
            api.Carry(Put(Id(o), Applied(api.world.objs, o, landed.value)));
          }
          return false;
        case Immutable(ack) =>
          if isNew || !m.force {
            return false;
          }
          if dryRun {
            return true;
          }
          ghost var deletes := IfLanded(ack, DeleteWrites(api.world.objs, Id(o)));
          var deleted := api.Delete(Id(o), ack);
          if !deleted {
            return false;
          }
          ok := ServerSideApply(o, isNew, dryRun, patches[1..]);
          ReplayConcat(old(api.world), deletes,
                       SsaOutcome(m, Replay(old(api.world), deletes), o, isNew, dryRun, patches[1..]).0);
      }
    }

    method ReconcileObject(desired: Object, checksum: string, dryRun: bool, script: Script)
      returns (changes: seq<Change>, ok: bool)
      modifies api
      ensures var out := ObjectOutcome(m, old(api.world), desired, checksum, dryRun, script);
              changes == out.changes && ok == out.ok
              && api.log == old(api.log) + out.writes && api.world == Replay(old(api.world), out.writes)
    {
      var o := Stamp(m, checksum, desired);
      var key := Id(desired);
      if script.getFails {
        return [Change(key, Failing)], false;
      }
      if key !in api.world.objs {
        ok := ServerSideApply(o, true, dryRun, script.patches);
        return [Change(key, if ok then Created else Failing)], ok;
      }
      var found := api.world.objs[key];
      if && LAST_APPLIED in found.annotations
         && found.annotations[LAST_APPLIED] == o.annotations[LAST_APPLIED] {
        var verdict := m.diff(o, found);
        if verdict.DiffFailed? {
          return [Change(key, Failing)], false;
        } else if verdict.UpToDate? {
          return [], true;
        }
      }
      ok := ServerSideApply(o, false, dryRun, script.patches);
      return [Change(key, if ok then Configured else Failing)], ok;
    }

    method ReconcileUnstructured(snapshot: Snapshot, objects: seq<Object>, dryRun: bool, scripts: seq<Script>)
      returns (changes: seq<Change>, ok: bool)
      requires |scripts| == |objects|
      modifies api
      ensures var out := ManifestOutcome(m, old(api.world), objects, snapshot.checksum, dryRun, scripts);
              changes == out.changes && ok == out.ok
              && api.log == old(api.log) + out.writes && api.world == Replay(old(api.world), out.writes)
    {
      hide ObjectOutcome;
      changes, ok := [], true;
      ghost var w0, done := api.world, Outcome([], [], true);
      for i := 0 to |objects|
        invariant done == OutcomeUpTo(m, w0, objects, snapshot.checksum, dryRun, scripts, i)
        invariant changes == done.changes && done.ok && ok
        invariant api.log == old(api.log) + done.writes
        invariant api.world == Replay(w0, done.writes)
      {
        ghost var out := OneMoreObject(m, w0, objects, snapshot.checksum, dryRun, scripts, i);
        var more: seq<Change>;
        more, ok := ReconcileObject(objects[i], snapshot.checksum, dryRun, scripts[i]);
        done := OutcomeUpTo(m, w0, objects, snapshot.checksum, dryRun, scripts, i + 1);
        changes := changes + more;
        if !ok {
          return;
        }
      }
    }

    /** One item of a listing, of the objects `listed` of which `dead` were
        deleted already. */
    method PruneItem(k: Key, item: Live, checksum: string, ack: Ack, ghost w: World, ghost dead: set<Key>,
                     ghost before: seq<Write>)
      returns (ok: bool, ghost writes: seq<Write>)
      requires k in w.objs && w.objs[k] == item && k !in dead && Matches(m.owner, item.labels)
      requires api.world == w.(objs := Reaped(w.objs, dead)) && PruningLog(m, checksum, w, before, api.world)
      modifies api
      ensures ok <==> (Doomed(m, item, checksum) ==> ack.Done?)
      ensures api.log == old(api.log) + writes && PruningLog(m, checksum, w, before + writes, api.world)
      ensures var dead' := if Doomed(m, item, checksum) && Landed(ack) then dead + {k} else dead;
              api.world == w.(objs := Reaped(w.objs, dead'))
    {
      hide ShouldNotPrune, IsOrphaned, Matches, Reaped, DeleteWrites, PruningLog;
      ok, writes := true, [];
      if ShouldNotPrune(item) {
        assert before + [] == before;
        return;
      }
      if IsOrphaned(m, item, checksum) && !item.terminating {
        writes := OneMoreDelete(m, checksum, w, dead, before, k, ack);
        ok := api.Delete(k, ack);
      } else {
        assert before + [] == before;
      }
    }

    /** One listing: every item still doomed is deleted. */
    method Sweep(ns: string, g: GVK, checksum: string, answers: PruneAnswers)
      returns (ok: bool, ghost writes: seq<Write>)
      modifies api
      ensures ok <==> SweepSucceeds(m, checksum, old(api.world.objs), answers, ns, g)
      ensures api.log == old(api.log) + writes && PruningLog(m, checksum, old(api.world), writes, api.world)
      ensures api.world == old(api.world).(objs := Reaped(old(api.world.objs),
                                                          DeadIn(m, checksum, old(api.world.objs), answers, ns, [g])))
    {
      hide ShouldNotPrune, IsOrphaned, Matches, Reaped, DeleteWrites, PruningLog;
      ok, writes := true, [];
      EmptyPruningLog(m, checksum, api.world);
      var listed := api.world.objs;
      ReapNothing(listed);
      if answers.listFails(ns, g) {
        assert DeadIn(m, checksum, listed, answers, ns, [g]) == {};
        return false, [];
      }
      ghost var w0, dead := api.world, {};
      var items := set k | k in listed && InListing(k, ns, g) && Matches(m.owner, listed[k].labels);
      ghost var all := items;
      while items != {}
        invariant items <= all
        invariant dead == set k | k in all && k !in items && Dies(m, checksum, listed[k], answers, ns, k)
        invariant api.world == w0.(objs := Reaped(listed, dead))
        invariant ok <==> forall k :: k in all && k !in items && Doomed(m, listed[k], checksum) ==>
                  answers.deletes(ns, k).Done?
        invariant api.log == old(api.log) + writes && PruningLog(m, checksum, w0, writes, api.world)
        decreases items
      {
        var k :| k in items;
        items := items - {k};
        var pruned: bool;
        ghost var more: seq<Write>;
        pruned, more := PruneItem(k, listed[k], checksum, answers.deletes(ns, k), w0, dead, writes);
        writes := writes + more;
        dead := if Dies(m, checksum, listed[k], answers, ns, k) then dead + {k} else dead;
        ok := ok && pruned;
      }
      assert dead == DeadIn(m, checksum, listed, answers, ns, [g]);
    }

    /** Every kind of one namespace, or of the whole cluster. */
    method SweepKinds(ns: string, kinds: seq<GVK>, checksum: string, answers: PruneAnswers)
      returns (ok: bool, ghost writes: seq<Write>)
      modifies api
      ensures ok <==> forall g :: g in kinds ==> SweepSucceeds(m, checksum, old(api.world.objs), answers, ns, g)
      ensures api.log == old(api.log) + writes && PruningLog(m, checksum, old(api.world), writes, api.world)
      ensures api.world == old(api.world).(objs := Reaped(old(api.world.objs),
                                                          DeadIn(m, checksum, old(api.world.objs), answers, ns, kinds)))
    {
      hide PruningLog, Reaped, SweepSucceeds, Dies;
      ok, writes := true, [];
      ghost var w0 := api.world;
      EmptyPruningLog(m, checksum, w0);
      assert DeadIn(m, checksum, w0.objs, answers, ns, []) == {};
      ReapNothing(w0.objs);
      for i := 0 to |kinds|
        invariant ok <==> forall g :: g in kinds[..i] ==> SweepSucceeds(m, checksum, w0.objs, answers, ns, g)
        invariant api.log == old(api.log) + writes && PruningLog(m, checksum, w0, writes, api.world)
        invariant api.world == w0.(objs := Reaped(w0.objs, DeadIn(m, checksum, w0.objs, answers, ns, kinds[..i])))
      {
        ghost var w := api.world;
        NextKind(m, checksum, w0.objs, answers, ns, kinds, i);
        var swept: bool;
        ghost var more: seq<Write>;
        swept, more := Sweep(ns, kinds[i], checksum, answers);
        PruningLogConcat(m, checksum, w0, writes, w, more, api.world);
        writes := writes + more;
        if !swept {
          ok := false;
        }
      }
      assert kinds[..|kinds|] == kinds;
    }

    /** The listings of single namespaces. */
    method PruneNamespaces(nsk: map<string, seq<GVK>>, checksum: string, answers: PruneAnswers)
      returns (success: bool, ghost dead: set<Key>, ghost writes: seq<Write>)
      requires "" !in nsk
      modifies api
      ensures success <==> forall ns, g :: Has(nsk, ns, g) ==>
                SweepSucceeds(m, checksum, old(api.world.objs), answers, ns, g)
      ensures dead == set k | k in old(api.world.objs) && Has(nsk, k.ns, k.gvk)
              && Dies(m, checksum, old(api.world.objs)[k], answers, k.ns, k)
      ensures api.log == old(api.log) + writes && PruningLog(m, checksum, old(api.world), writes, api.world)
      ensures api.world == old(api.world).(objs := Reaped(old(api.world.objs), dead))
    {
      hide PruningLog, Reaped, SweepSucceeds, Doomed;
      success, dead, writes := true, {}, [];
      EmptyPruningLog(m, checksum, api.world);
      ghost var w0, objs := api.world, api.world.objs;
      ReapNothing(objs);
      var rest := nsk.Keys;
      while rest != {}
        invariant rest <= nsk.Keys
        invariant dead == set k | k in objs && k.ns !in rest && Has(nsk, k.ns, k.gvk)
                && Dies(m, checksum, objs[k], answers, k.ns, k)
        invariant success <==> forall ns, g :: ns !in rest && Has(nsk, ns, g) ==>
                  SweepSucceeds(m, checksum, objs, answers, ns, g)
        invariant api.log == old(api.log) + writes && PruningLog(m, checksum, w0, writes, api.world)
        invariant api.world == w0.(objs := Reaped(objs, dead))
        decreases rest
      {
        var ns :| ns in rest;
        ghost var w := api.world;
        OtherNamespace(m, checksum, objs, answers, ns, nsk[ns], dead);
        ReapTwice(objs, dead, DeadIn(m, checksum, objs, answers, ns, nsk[ns]));
        var ok: bool;
        ghost var more: seq<Write>;
        ok, more := SweepKinds(ns, nsk[ns], checksum, answers);
        PruningLogConcat(m, checksum, w0, writes, w, more, api.world);
        writes := writes + more;
        success := success && ok;
        dead := dead + DeadIn(m, checksum, objs, answers, ns, nsk[ns]);
        rest := rest - {ns};
      }
    }

    /** `Prune`. Without a new snapshot the checksum is empty. */
    method Prune(last: Option<Snapshot>, next: Option<Snapshot>, answers: PruneAnswers)
      returns (success: bool, ghost writes: seq<Write>)
      modifies api
      ensures var checksum := if next.Some? then next.value.checksum else "";
              && PruningLog(m, checksum, old(api.world), writes, api.world)
              && match last {
                   case None => success && api.world == old(api.world)
                   case Some(l) =>
                     && (success <==> PruneSucceeds(m, checksum, old(api.world.objs), answers, l))
                     && api.world == old(api.world).(objs := Pruned(m, checksum, old(api.world.objs), answers, l))
                 }
      ensures api.log == old(api.log) + writes
    {
      hide PruningLog, Reaped, SweepSucceeds, Dies;
      success, writes := true, [];
      EmptyPruningLog(m, if next.Some? then next.value.checksum else "", api.world);
      if last.None? {
        return;
      }
      var checksum := if next.Some? then next.value.checksum else "";
      ghost var w0, objs, l := api.world, api.world.objs, last.value;
      var nsk := NamespacedKinds(last.value);
      ghost var dead: set<Key>;
      success, dead, writes := PruneNamespaces(nsk, checksum, answers);
      assert dead == DeadInNamespaces(m, checksum, objs, answers, l);
      ghost var half := api.world;
      var kinds := NonNamespacedKinds(last.value);
      var ok: bool;
      ghost var more: seq<Write>;
      ok, more := SweepKinds("", kinds, checksum, answers);
      assert DeadIn(m, checksum, half.objs, answers, "", kinds) == DeadClusterWide(m, checksum, half.objs, answers, l);
      PruningLogConcat(m, checksum, w0, writes, half, more, api.world);
      writes := writes + more;
      success := success && ok;
    }
  }
}
