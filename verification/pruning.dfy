/** What pruning does to the cluster, object by object. */
module Pruning {
  import opened Objects
  import opened Snapshots
  import opened Cluster
  import opened Manager

  /** Pruning from `s` comes across objects like `k`: their kind is listed in
      their namespace, or across the cluster. */
  ghost predicate Recorded(s: Snapshot, ns: string, g: GVK) {
    (ns != "" && Lists(s, ns, g)) || Lists(s, "", g)
  }

  /** One of the two listings finds the doomed `k`, and its deletion lands. */
  ghost predicate Killed(m: Settings, checksum: string, objs: map<Key, Live>, answers: PruneAnswers, last: Snapshot,
                         k: Key) {
    && k in objs
    && ((k.ns != "" && Lists(last, k.ns, k.gvk) && Dies(m, checksum, objs[k], answers, k.ns, k))
        || (Lists(last, "", k.gvk) && Dies(m, checksum, objs[k], answers, "", k)))
  }

  /** Exactly the killed objects are removed, or marked when they have
      finalizers; all others stay as they were. */
  lemma PruneDeletesExactly(m: Settings, checksum: string, objs: map<Key, Live>, answers: PruneAnswers, last: Snapshot)
    ensures Pruned(m, checksum, objs, answers, last)
              == Reaped(objs, set k | k in objs && Killed(m, checksum, objs, answers, last, k))
  {
    hide Lists, Doomed;
    var dead := DeadInNamespaces(m, checksum, objs, answers, last);
    var half := Reaped(objs, dead);
    ReapedNotDoomed(m, checksum, objs, dead);
    var more := DeadClusterWide(m, checksum, half, answers, last);
    ReapTwice(objs, dead, more);
    assert forall k :: k in dead + more <==> Killed(m, checksum, objs, answers, last, k);
    assert dead + more == set k | k in objs && Killed(m, checksum, objs, answers, last, k);
  }

  /** What is not doomed survives untouched. */
  lemma SparedSurvives(m: Settings, checksum: string, objs: map<Key, Live>, answers: PruneAnswers, last: Snapshot,
                       k: Key)
    requires k in objs && !Doomed(m, objs[k], checksum)
    ensures var after := Pruned(m, checksum, objs, answers, last); k in after && after[k] == objs[k]
  {
    PruneDeletesExactly(m, checksum, objs, answers, last);
  }

  /** Pruning never touches what is someone else's, opted out by label or by
      annotation, on its way out already, of no recorded kind, or, while the parent
      lives, of the new manifest. */
  lemma NeverPruned(m: Settings, checksum: string, objs: map<Key, Live>, answers: PruneAnswers, last: Snapshot, k: Key)
    requires k in objs
    requires var l := objs[k];
             || NAME_LABEL !in l.labels || l.labels[NAME_LABEL] != m.owner.name
             || NAMESPACE_LABEL !in l.labels || l.labels[NAMESPACE_LABEL] != m.owner.ns
             || (SKIP_PRUNING in l.labels && l.labels[SKIP_PRUNING] == PRUNING_DISABLED)
             || (SKIP_PRUNING in l.annotations && l.annotations[SKIP_PRUNING] == PRUNING_DISABLED)
             || l.terminating || !Recorded(last, k.ns, k.gvk)
             || (!m.deleting && CHECKSUM_LABEL in l.labels && l.labels[CHECKSUM_LABEL] == checksum)
    ensures var after := Pruned(m, checksum, objs, answers, last); k in after && after[k] == objs[k]
  {
    hide Lists, Pruned;
    assert NAME_LABEL in SelectorLabels(m.owner) && NAMESPACE_LABEL in SelectorLabels(m.owner);
    PruneDeletesExactly(m, checksum, objs, answers, last);
  }

  /** After a prune that reports success nothing doomed is left that it could
      come across; and what is left was there before, at most marked. */
  lemma SuccessfulPruneIsComplete(m: Settings, checksum: string, objs: map<Key, Live>, answers: PruneAnswers,
                                  last: Snapshot, k: Key)
    requires PruneSucceeds(m, checksum, objs, answers, last)
    requires k in Pruned(m, checksum, objs, answers, last)
    ensures var l := Pruned(m, checksum, objs, answers, last)[k];
            && k in objs && (l == objs[k] || l == objs[k].(terminating := true))
            && (Recorded(last, k.ns, k.gvk) ==> !Doomed(m, l, checksum))
  {
    hide Lists;
    PruneDeletesExactly(m, checksum, objs, answers, last);
    if Recorded(last, k.ns, k.gvk) && Doomed(m, objs[k], checksum) {
      var ns := if k.ns != "" && Lists(last, k.ns, k.gvk) then k.ns else "";
      var dead := DeadInNamespaces(m, checksum, objs, answers, last);
      var here := if ns == "" then Reaped(objs, dead) else objs;
      ReapedNotDoomed(m, checksum, objs, dead);
      assert SweepSucceeds(m, checksum, here, answers, ns, k.gvk);
      assert Killed(m, checksum, objs, answers, last, k);
    }
  }

  /** The converse of `NeverPruned`: after a prune that reports success, what
      belongs to the owner, is not opted out, not on its way out, and, while the
      parent lives, not of the new manifest, is gone if its kind is recorded; or
      it is marked, if it has finalizers. */
  lemma StaleIsPruned(m: Settings, checksum: string, objs: map<Key, Live>, answers: PruneAnswers, last: Snapshot,
                      k: Key)
    requires PruneSucceeds(m, checksum, objs, answers, last) && Recorded(last, k.ns, k.gvk)
    requires k in objs && !objs[k].terminating
    requires var l := objs[k].labels;
             && NAME_LABEL in l && l[NAME_LABEL] == m.owner.name
             && NAMESPACE_LABEL in l && l[NAMESPACE_LABEL] == m.owner.ns
             && (SKIP_PRUNING in l ==> l[SKIP_PRUNING] != PRUNING_DISABLED)
             && (m.deleting || (CHECKSUM_LABEL in l ==> l[CHECKSUM_LABEL] != checksum))
    requires SKIP_PRUNING in objs[k].annotations ==> objs[k].annotations[SKIP_PRUNING] != PRUNING_DISABLED
    ensures var after := Pruned(m, checksum, objs, answers, last);
            if objs[k].finalizers == {} then k !in after
            else k in after && after[k] == objs[k].(terminating := true)
  {
    hide Lists, Pruned, Recorded;
    var after := Pruned(m, checksum, objs, answers, last);
    assert Doomed(m, objs[k], checksum);
    PruneDeletesExactly(m, checksum, objs, answers, last);
    if k in after {
      SuccessfulPruneIsComplete(m, checksum, objs, answers, last, k);
    }
  }

  /** So is what an earlier manifest had, or what shares the kind of one of its
      objects in the same namespace, or of one without a namespace anywhere. */
  lemma EarlierManifestIsPruned(m: Settings, checksum: string, objs: map<Key, Live>, answers: PruneAnswers,
                                earlier: seq<Object>, hash: seq<Object> -> string, o: Object, k: Key)
    requires forall x :: x in earlier ==> HasKind(x)
    requires o in earlier && k.gvk == Gvk(o) && (o.ns == k.ns || o.ns == "")
    requires PruneSucceeds(m, checksum, objs, answers, SnapshotOf(earlier, hash))
    requires k in objs && !objs[k].terminating
    requires var l := objs[k].labels;
             && NAME_LABEL in l && l[NAME_LABEL] == m.owner.name
             && NAMESPACE_LABEL in l && l[NAMESPACE_LABEL] == m.owner.ns
             && (SKIP_PRUNING in l ==> l[SKIP_PRUNING] != PRUNING_DISABLED)
             && (m.deleting || (CHECKSUM_LABEL in l ==> l[CHECKSUM_LABEL] != checksum))
    requires SKIP_PRUNING in objs[k].annotations ==> objs[k].annotations[SKIP_PRUNING] != PRUNING_DISABLED
    ensures var after := Pruned(m, checksum, objs, answers, SnapshotOf(earlier, hash));
            if objs[k].finalizers == {} then k !in after
            else k in after && after[k] == objs[k].(terminating := true)
  {
    hide SnapshotOf, Gvk, HasKind;
    SnapshotRecordsExactly(earlier, hash, o.ns, Gvk(o));
    assert (o.ns, Gvk(o)) in KindsOf(earlier);
    StaleIsPruned(m, checksum, objs, answers, SnapshotOf(earlier, hash), k);
  }

  /** The deletion of `k` fails when its kind is listed in `ns`; the listing of
      the cluster does not come across what died in its namespace. */
  ghost predicate FailsToDie(m: Settings, checksum: string, objs: map<Key, Live>, answers: PruneAnswers, last: Snapshot,
                             ns: string, g: GVK, k: Key) {
    && k in objs && InListing(k, ns, g) && Doomed(m, objs[k], checksum) && !answers.deletes(ns, k).Done?
    && !(ns == "" && k.ns != "" && Lists(last, k.ns, g) && Dies(m, checksum, objs[k], answers, k.ns, k))
  }

  ghost predicate ListingFails(m: Settings, checksum: string, objs: map<Key, Live>, answers: PruneAnswers,
                               last: Snapshot, ns: string, g: GVK) {
    answers.listFails(ns, g) || exists k :: FailsToDie(m, checksum, objs, answers, last, ns, g, k)
  }

  /** A failure is reported exactly when a listing failed, or the deletion of
      an object it came across. */
  lemma FailureReportedExactly(m: Settings, checksum: string, objs: map<Key, Live>, answers: PruneAnswers,
                               last: Snapshot)
    ensures !PruneSucceeds(m, checksum, objs, answers, last) <==>
              exists ns, g :: Lists(last, ns, g) && ListingFails(m, checksum, objs, answers, last, ns, g)
  {
    hide Lists, SweepSucceeds, ListingFails;
    forall ns, g
      ensures ListingFails(m, checksum, objs, answers, last, ns, g) <==>
                !SweepSucceeds(m, checksum, if ns == "" then HalfPruned(m, checksum, objs, answers, last) else objs,
                               answers, ns, g)
    {
      FailingSweep(m, checksum, objs, answers, last, ns, g);
    }
  }

  lemma FailingSweep(m: Settings, checksum: string, objs: map<Key, Live>, answers: PruneAnswers, last: Snapshot,
                     ns: string, g: GVK)
    ensures ListingFails(m, checksum, objs, answers, last, ns, g) <==>
              !SweepSucceeds(m, checksum, if ns == "" then HalfPruned(m, checksum, objs, answers, last) else objs,
                             answers, ns, g)
  {
    hide Lists, Doomed;
    var dead := DeadInNamespaces(m, checksum, objs, answers, last);
    ReapedNotDoomed(m, checksum, objs, dead);
    var here := if ns == "" then Reaped(objs, dead) else objs;
    if k :| FailsToDie(m, checksum, objs, answers, last, ns, g, k) {
      assert k in here && Doomed(m, here[k], checksum);
    }
    if k :| k in here && InListing(k, ns, g) && Doomed(m, here[k], checksum) && !answers.deletes(ns, k).Done? {
      assert FailsToDie(m, checksum, objs, answers, last, ns, g, k);
    }
  }
}
