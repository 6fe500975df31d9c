/** The kind index stored in the status after a run. */
module Snapshots {
  import opened Json
  import opened Objects

  /** `kinds` maps the string of a group/version/kind to the kind. */
  datatype SnapshotEntry = SnapshotEntry(ns: string, kinds: map<string, string>)
  datatype Snapshot = Snapshot(checksum: string, entries: seq<SnapshotEntry>)

  function Entered(entries: seq<SnapshotEntry>, o: Object): seq<SnapshotEntry> {
    if entries == [] then [SnapshotEntry(o.ns, map[KindString(Gvk(o)) := o.kind])]
    else if entries[0].ns == o.ns then
      [SnapshotEntry(o.ns, entries[0].kinds[KindString(Gvk(o)) := o.kind])] + entries[1..]
    else [entries[0]] + Entered(entries[1..], o)
  }

  function EntriesOf(objects: seq<Object>): seq<SnapshotEntry> {
    if objects == [] then [] else Entered(EntriesOf(objects[..|objects| - 1]), objects[|objects| - 1])
  }

  function SnapshotOf(objects: seq<Object>, checksum: seq<Object> -> string): Snapshot {
    Snapshot(checksum(objects), EntriesOf(objects))
  }

  lemma SnapshotChecksum(objects: seq<Object>, checksum: seq<Object> -> string)
    ensures SnapshotOf(objects, checksum).checksum == checksum(objects)
  {
  }

  /** A snapshot under construction. */
  class SnapshotBuilder {
    const checksum: string
    var entries: seq<SnapshotEntry>

    constructor (checksum: string)
      ensures this.checksum == checksum && entries == []
    {
      this.checksum, entries := checksum, [];
    }

    method AddEntry(item: Object)
      modifies this
      ensures entries == Entered(old(entries), item)
    {
      var i := 0;
      while i < |entries|
        invariant i <= |entries| && entries == old(entries)
        invariant Entered(entries, item) == entries[..i] + Entered(entries[i..], item)
      {
        if entries[i].ns == item.ns {
          var tracker := entries[i];
          entries := entries[i := tracker.(kinds := tracker.kinds[KindString(Gvk(item)) := item.kind])];
          return;
        }
        assert entries[i..][1..] == entries[i + 1..];
        i := i + 1;
      }
      assert entries[i..] == [];
      entries := entries + [SnapshotEntry(item.ns, map[KindString(Gvk(item)) := item.kind])];
    }
  }

  method NewSnapshotFromUnstructured(objects: seq<Object>, checksum: seq<Object> -> string) returns (s: Snapshot)
    ensures s == SnapshotOf(objects, checksum)
  {
    var b := new SnapshotBuilder(checksum(objects));
    for i := 0 to |objects|
      invariant b.entries == EntriesOf(objects[..i])
    {
      b.AddEntry(objects[i]);
      assert objects[..i + 1][..i] == objects[..i];
    }
    assert objects[..|objects|] == objects;
    return Snapshot(b.checksum, b.entries);
  }

  /** Entry `kinds` yields the kind `g`. */
  ghost predicate Yields(kinds: map<string, string>, g: GVK) {
    exists k :: k in kinds && ReadKind(k, kinds[k]) == Some(g)
  }

  /** The readers make pruning list kind `g` in namespace `ns`; the empty
      namespace stands for the whole cluster. Of several entries for one
      namespace only the last is read, of several without one all are. */
  ghost predicate Lists(s: Snapshot, ns: string, g: GVK) {
    ListsBelow(s.entries, |s.entries|, ns, g)
  }

  /** As `Lists`, for the first `n` entries only. */
  ghost predicate ListsBelow(entries: seq<SnapshotEntry>, n: nat, ns: string, g: GVK)
    requires n <= |entries|
  {
    exists i :: 0 <= i < n && ListsAt(entries, i, n, ns, g)
  }

  ghost predicate ListsAt(entries: seq<SnapshotEntry>, i: nat, n: nat, ns: string, g: GVK)
    requires i < n <= |entries|
  {
    && entries[i].ns == ns && Yields(entries[i].kinds, g)
    && (ns != "" ==> forall j :: i < j < n ==> entries[j].ns != ns)
  }

  method ReadKinds(kinds: map<string, string>) returns (gvks: seq<GVK>)
    ensures forall g :: g in gvks <==> Yields(kinds, g)
  {
    gvks := [];
    var rest := kinds.Keys;
    while rest != {}
      invariant rest <= kinds.Keys
      invariant forall g :: g in gvks <==> exists k :: k in kinds && k !in rest && ReadKind(k, kinds[k]) == Some(g)
      decreases rest
    {
      var k :| k in rest;
      rest := rest - {k};
      var g := ReadKind(k, kinds[k]);
      if g.Some? {
        gvks := gvks + [g.value];
      }
    }
  }

  /** The effect of one more entry on what the readers list. */
  lemma OneMoreEntry(entries: seq<SnapshotEntry>, n: nat, ns: string, g: GVK)
    requires n < |entries|
    ensures ListsBelow(entries, n + 1, ns, g) <==>
            if entries[n].ns != ns then ListsBelow(entries, n, ns, g)
            else Yields(entries[n].kinds, g) || (ns == "" && ListsBelow(entries, n, ns, g))
  {
    hide Yields;
    assert entries[n].ns == ns ==> (ListsAt(entries, n, n + 1, ns, g) <==> Yields(entries[n].kinds, g));
    if ListsBelow(entries, n, ns, g) && (entries[n].ns != ns || ns == "") {
      var i :| 0 <= i < n && ListsAt(entries, i, n, ns, g);
      assert ListsAt(entries, i, n + 1, ns, g);
    }
    if ListsBelow(entries, n + 1, ns, g) {
      var i :| 0 <= i < n + 1 && ListsAt(entries, i, n + 1, ns, g);
      assert i < n ==> ListsAt(entries, i, n, ns, g);
    }
  }

  /** One more entry hides earlier ones for its namespace; entries without a
      namespace add up. */
  lemma LaterEntryHides(checksum: string, entries: seq<SnapshotEntry>, kinds: map<string, string>, e: string,
                        ns: string, g: GVK)
    ensures Lists(Snapshot(checksum, entries + [SnapshotEntry(e, kinds)]), ns, g) <==>
              || (ns == e && exists k :: k in kinds && ReadKind(k, kinds[k]) == Some(g))
              || ((ns != e || ns == "") && Lists(Snapshot(checksum, entries), ns, g))
  {
    hide ReadKind;
    var all := entries + [SnapshotEntry(e, kinds)];
    OneMoreEntry(all, |entries|, ns, g);
    EarlierEntries(all, entries, ns, g);
  }

  lemma EarlierEntries(all: seq<SnapshotEntry>, entries: seq<SnapshotEntry>, ns: string, g: GVK)
    requires |entries| <= |all| && all[..|entries|] == entries
    ensures ListsBelow(all, |entries|, ns, g) <==> ListsBelow(entries, |entries|, ns, g)
  {
    hide Yields;
    assert forall i :: 0 <= i < |entries| ==> all[i] == entries[i];
    assert forall i :: 0 <= i < |entries| ==>
        (ListsAt(all, i, |entries|, ns, g) <==> ListsAt(entries, i, |entries|, ns, g));
  }

  method NonNamespacedKinds(s: Snapshot) returns (kinds: seq<GVK>)
    ensures forall g :: g in kinds <==> Lists(s, "", g)
  {
    kinds := [];
    for n := 0 to |s.entries|
      invariant forall g :: g in kinds <==> ListsBelow(s.entries, n, "", g)
    {
      forall g { OneMoreEntry(s.entries, n, "", g); }
      if s.entries[n].ns == "" {
        var more := ReadKinds(s.entries[n].kinds);
        kinds := kinds + more;
      }
    }
  }

  predicate Has(nsk: map<string, seq<GVK>>, ns: string, g: GVK) {
    ns in nsk && g in nsk[ns]
  }

  method NamespacedKinds(s: Snapshot) returns (nsk: map<string, seq<GVK>>)
    ensures "" !in nsk
    ensures forall ns, g :: Has(nsk, ns, g) <==> ns != "" && Lists(s, ns, g)
  {
    nsk := map[];
    for n := 0 to |s.entries|
      invariant "" !in nsk
      invariant forall ns, g :: Has(nsk, ns, g) <==> ns != "" && ListsBelow(s.entries, n, ns, g)
    {
      ghost var before := nsk;
      if s.entries[n].ns != "" {
        var kinds := ReadKinds(s.entries[n].kinds);
        nsk := nsk[s.entries[n].ns := kinds];
      }
      forall ns, g
        ensures Has(nsk, ns, g) <==> ns != "" && ListsBelow(s.entries, n + 1, ns, g)
      {
        assert Has(before, ns, g) <==> ns != "" && ListsBelow(s.entries, n, ns, g);
        OneMoreEntry(s.entries, n, ns, g);
      }
    }
  }

  // ------------------------------------------------- what a snapshot records

  predicate Unique(entries: seq<SnapshotEntry>) {
    forall i, j :: 0 <= i < j < |entries| ==> entries[i].ns != entries[j].ns
  }

  /** The kinds filed under a namespace. */
  function Filed(entries: seq<SnapshotEntry>, ns: string): map<string, string> {
    if entries == [] then map[]
    else if entries[0].ns == ns then entries[0].kinds
    else Filed(entries[1..], ns)
  }

  lemma {:induction false} EnteredUnique(entries: seq<SnapshotEntry>, o: Object)
    requires Unique(entries)
    ensures Unique(Entered(entries, o))
    ensures forall e :: e in Entered(entries, o) ==> e.ns == o.ns || e in entries
  {
    if entries != [] && entries[0].ns != o.ns {
      var t := Entered(entries[1..], o);
      EnteredUnique(entries[1..], o);
      forall j | 0 <= j < |t| ensures entries[0].ns != t[j].ns {
        assert t[j] in t;
      }
    }
  }

  lemma {:induction false} EnteredFiles(entries: seq<SnapshotEntry>, o: Object, ns: string)
    ensures Filed(Entered(entries, o), ns) ==
              if ns == o.ns then Filed(entries, ns)[KindString(Gvk(o)) := o.kind] else Filed(entries, ns)
  {
    if entries != [] && entries[0].ns != o.ns {
      EnteredFiles(entries[1..], o, ns);
    }
  }

  lemma {:induction false} FiledAt(entries: seq<SnapshotEntry>, i: nat)
    requires Unique(entries) && i < |entries|
    ensures Filed(entries, entries[i].ns) == entries[i].kinds
  {
    if i > 0 {
      FiledAt(entries[1..], i - 1);
    }
  }

  lemma {:induction false} FiledSomewhere(entries: seq<SnapshotEntry>, ns: string)
    ensures Filed(entries, ns) != map[] ==> exists i :: 0 <= i < |entries| && entries[i].ns == ns
  {
    if entries != [] && entries[0].ns != ns {
      FiledSomewhere(entries[1..], ns);
      if i :| 0 <= i < |entries[1..]| && entries[1..][i].ns == ns {
        assert entries[i + 1].ns == ns;
      }
    }
  }

  /** Exactly the objects' kinds are filed under their namespaces. */
  lemma {:induction false} FiledExactly(objects: seq<Object>, ns: string, k: string)
    ensures Unique(EntriesOf(objects))
    ensures k in Filed(EntriesOf(objects), ns) <==>
              exists o :: o in objects && o.ns == ns && KindString(Gvk(o)) == k
    ensures k in Filed(EntriesOf(objects), ns) ==>
              exists o :: o in objects && o.ns == ns && KindString(Gvk(o)) == k
                && o.kind == Filed(EntriesOf(objects), ns)[k]
  {
    hide KindString, Gvk;
    if objects != [] {
      var n := |objects| - 1;
      FiledExactly(objects[..n], ns, k);
      EnteredUnique(EntriesOf(objects[..n]), objects[n]);
      EnteredFiles(EntriesOf(objects[..n]), objects[n], ns);
      assert objects == objects[..n] + [objects[n]];
    }
  }

  /** The namespaces and kinds of a list of objects. */
  function KindsOf(objects: seq<Object>): set<(string, GVK)> {
    set o | o in objects :: (o.ns, Gvk(o))
  }

  /** The snapshot of a manifest makes pruning list exactly the namespaces and
      kinds of its objects. */
  lemma SnapshotRecordsExactly(objects: seq<Object>, checksum: seq<Object> -> string, ns: string, g: GVK)
    requires forall o :: o in objects ==> HasKind(o)
    ensures Lists(SnapshotOf(objects, checksum), ns, g) <==> (ns, g) in KindsOf(objects)
  {
    hide KindString, ReadKind, Gvk, Filed;
    var s := SnapshotOf(objects, checksum);
    var kinds := Filed(s.entries, ns);
    FiledExactly(objects, ns, "");
    if Lists(s, ns, g) {
      var i :| 0 <= i < |s.entries| && ListsAt(s.entries, i, |s.entries|, ns, g);
      FiledAt(s.entries, i);
      var k :| k in kinds && ReadKind(k, kinds[k]) == Some(g);
      FiledExactly(objects, ns, k);
      var o :| o in objects && o.ns == ns && KindString(Gvk(o)) == k && o.kind == kinds[k];
      RecordedAsIs(o);
    }
    if (ns, g) in KindsOf(objects) {
      var o :| o in objects && o.ns == ns && Gvk(o) == g;
      var k := KindString(g);
      FiledExactly(objects, ns, k);
      var o' :| o' in objects && o'.ns == ns && KindString(Gvk(o')) == k && o'.kind == kinds[k];
      SameKindString(o, o');
      RecordedAsIs(o);
      assert Yields(kinds, g);
      FiledSomewhere(s.entries, ns);
      var i :| 0 <= i < |s.entries| && s.entries[i].ns == ns;
      FiledAt(s.entries, i);
      assert ListsAt(s.entries, i, |s.entries|, ns, g);
    }
  }

  lemma SameKindString(a: Object, b: Object)
    requires HasKind(a) && HasKind(b) && KindString(Gvk(a)) == KindString(Gvk(b))
    ensures a.kind == b.kind
  {
    RecordedAsIs(a);
    RecordedAsIs(b);
    var pre := Gvk(a).group + "/" + Gvk(a).version + ", Kind=";
    var k := KindString(Gvk(a));
    assert ReadKind(k, a.kind) == Some(Gvk(a)) && ReadKind(k, b.kind) == Some(Gvk(b));
    assert k == pre + a.kind && k == pre + b.kind;
    assert k[|pre|..] == a.kind && k[|pre|..] == b.kind;
  }
}
