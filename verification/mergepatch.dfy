/** JSON merge patch (section 2 of RFC 7396) and the three-way patch that
    `threeWayMergePatch` asks its libraries for, over plain JSON. */
module MergePatch {
  import opened Json

  /** Section 2 of RFC 7396: apply `patch` to `target`. */
  function Merge(target: Json, patch: Json): (r: Json)
    ensures patch.Obj? ==> r.Obj?
    decreases patch
  {
    if patch.Obj? then
      var t := if target.Obj? then target.fields else map[];
      Obj(map k | k in t.Keys + patch.fields.Keys && !(k in patch.fields && patch.fields[k] == Null) ::
            if k in patch.fields then Merge(if k in t then t[k] else Null, patch.fields[k]) else t[k])
    else patch
  }

  /** The merge patch that turns `a` into `b`, both maps. */
  function Delta(a: Json, b: Json): (r: Json)
    requires a.Obj? && b.Obj?
    ensures r.Obj?
    decreases b, 1
  {
    Obj(map k | k in a.fields.Keys + b.fields.Keys && Differs(a, b, k) ::
          if k !in b.fields then Null
          else if k in a.fields && a.fields[k].Obj? && b.fields[k].Obj? then Delta(a.fields[k], b.fields[k])
          else b.fields[k])
  }

  predicate Differs(a: Json, b: Json, k: string)
    requires a.Obj? && b.Obj? && (k in a.fields || k in b.fields)
    decreases b, 0
  {
    k in a.fields && k in b.fields ==>
      if a.fields[k].Obj? && b.fields[k].Obj? then Delta(a.fields[k], b.fields[k]).fields != map[]
      else a.fields[k] != b.fields[k]
  }

  /** Additions and changes of a patch: nulls dropped, and maps left empty by
      that. A map that was empty to begin with is a value and stays. */
  function DropNulls(p: Json): (r: Json)
    requires p.Obj?
    ensures r.Obj?
  {
    Obj(map k | k in p.fields && p.fields[k] != Null &&
                (p.fields[k].Obj? && p.fields[k].fields != map[] ==> DropNulls(p.fields[k]).fields != map[]) ::
          if p.fields[k].Obj? then DropNulls(p.fields[k]) else p.fields[k])
  }

  /** Deletions of a patch: only the nulls, and the maps on the way to them. */
  function KeepNulls(p: Json): (r: Json)
    requires p.Obj?
    ensures r.Obj?
  {
    Obj(map k | k in p.fields &&
                (p.fields[k] == Null || (p.fields[k].Obj? && KeepNulls(p.fields[k]).fields != map[])) ::
          if p.fields[k].Obj? then KeepNulls(p.fields[k]) else Null)
  }

  /** Additions against `current`, deletions against `original`. */
  function ThreeWayPatch(original: Json, modified: Json, current: Json): (r: Json)
    requires original.Obj? && modified.Obj? && current.Obj?
    ensures r.Obj?
  {
    Merge(KeepNulls(Delta(original, modified)), DropNulls(Delta(current, modified)))
  }

  lemma {:induction false} NoSelfDelta(j: Json)
    requires j.Obj?
    ensures Delta(j, j).fields == map[]
  {
    forall k | k in j.fields
      ensures !Differs(j, j, k)
    {
      if j.fields[k].Obj? {
        NoSelfDelta(j.fields[k]);
      }
    }
  }

  lemma {:induction false} DropNullsFromNullFree(p: Json)
    requires p.Obj? && NullFree(p)
    ensures DropNulls(p) == p
  {
    forall k | k in p.fields && p.fields[k].Obj?
      ensures DropNulls(p.fields[k]) == p.fields[k]
    {
      DropNullsFromNullFree(p.fields[k]);
    }
    assert DropNulls(p).fields == p.fields;
  }

  lemma {:induction false} MergeNothing(j: Json)
    requires j.Obj?
    ensures Merge(j, Obj(map[])) == j
  {
    assert Merge(j, Obj(map[])).fields == j.fields;
  }

  /** `e` never deletes or overwrites anything `c` mentions. */
  predicate Spares(e: Json, c: Json)
    requires e.Obj? && c.Obj?
    decreases c
  {
    forall k :: k in e.fields && k in c.fields ==>
      e.fields[k].Obj? && c.fields[k].Obj? && Spares(e.fields[k], c.fields[k])
  }

  lemma {:induction false} DeletionsSpare(original: Json, c: Json)
    requires original.Obj? && c.Obj? && NullFree(c)
    ensures Spares(KeepNulls(Delta(original, c)), c)
  {
    var d := Delta(original, c);
    var e := KeepNulls(d);
    forall k | k in e.fields && k in c.fields
      ensures e.fields[k].Obj? && c.fields[k].Obj? && Spares(e.fields[k], c.fields[k])
    {
      assert k in d.fields && d.fields[k] != Null;
      if k in original.fields && original.fields[k].Obj? && c.fields[k].Obj? {
        DeletionsSpare(original.fields[k], c.fields[k]);
      } else {
        assert d.fields[k] == c.fields[k];
        NullFreeHasNoDeletions(c.fields[k]);
      }
    }
  }

  lemma {:induction false} NullFreeHasNoDeletions(p: Json)
    requires NullFree(p) && p.Obj?
    ensures KeepNulls(p).fields == map[]
  {
    forall k | k in p.fields && p.fields[k].Obj?
      ensures KeepNulls(p.fields[k]).fields == map[]
    {
      NullFreeHasNoDeletions(p.fields[k]);
    }
  }

  function AsMap(f: Fields, k: string): Json {
    if k in f && f[k].Obj? then f[k] else Obj(map[])
  }

  /** Patching `live` towards `c` always leaves a document that embeds `c`,
      whatever part `a` of live the additions were computed against, and
      whatever deletions outside `c` go along. */
  lemma {:induction false} PatchedEmbeds(a: Json, live: Json, c: Json, e: Json)
    requires a.Obj? && live.Obj? && c.Obj? && e.Obj?
    requires NullFree(c) && Embedded(a, live) && Spares(e, c)
    ensures Embedded(c, Merge(live, Merge(e, DropNulls(Delta(a, c)))))
    decreases c
  {
    var d := DropNulls(Delta(a, c));
    var p := Merge(e, d);
    var r := Merge(live, p);
    forall k | k in c.fields
      ensures k in r.fields && Embedded(c.fields[k], r.fields[k])
    {
      var ck := c.fields[k];
      if !ck.Obj? {
        PatchedLeaf(a, live, c, e, k);
      } else {
        var ek, lk := AsMap(e.fields, k), AsMap(live.fields, k);
        var ak := AsMap(a.fields, k);
        PatchedEmbeds(ak, lk, ck, ek);
        PatchedMap(a, live, c, e, k);
      }
    }
  }

  lemma PatchedLeaf(a: Json, live: Json, c: Json, e: Json, k: string)
    requires a.Obj? && live.Obj? && c.Obj? && e.Obj?
    requires k in c.fields && !c.fields[k].Obj? && c.fields[k] != Null && k !in e.fields
    requires k in a.fields ==> k in live.fields && Embedded(a.fields[k], live.fields[k])
    ensures var r := Merge(live, Merge(e, DropNulls(Delta(a, c)))).fields;
            k in r && Embedded(c.fields[k], r[k])
  {
    EmbeddedReflexive(c.fields[k]);
    PatchedLeafIs(a, live, c, e, k);
  }

  /** At a leaf or list of `c` the patched document has it, or, when `a`
      already showed it, live's own value. */
  lemma PatchedLeafIs(a: Json, live: Json, c: Json, e: Json, k: string)
    requires a.Obj? && live.Obj? && c.Obj? && e.Obj?
    requires k in c.fields && !c.fields[k].Obj? && c.fields[k] != Null && k !in e.fields
    requires k in a.fields ==> k in live.fields
    ensures var r := Merge(live, Merge(e, DropNulls(Delta(a, c)))).fields;
            k in r && r[k] == if k in a.fields && a.fields[k] == c.fields[k] then live.fields[k] else c.fields[k]
  {
    var d := DropNulls(Delta(a, c));
    LeafAddition(a, c, k);
    if k in d.fields {
      MergeLeaf(e, d, k);
      MergeLeaf(live, Merge(e, d), k);
    } else {
      MergeElsewhere(e, d, k);
      MergeElsewhere(live, Merge(e, d), k);
    }
  }

  /** A leaf or list of `c` is added whole, unless `a` already has it. */
  lemma LeafAddition(a: Json, c: Json, k: string)
    requires a.Obj? && c.Obj? && k in c.fields && !c.fields[k].Obj? && c.fields[k] != Null
    ensures var d := DropNulls(Delta(a, c)).fields;
            if k in a.fields && a.fields[k] == c.fields[k] then k !in d else k in d && d[k] == c.fields[k]
  {
    var q := Delta(a, c).fields;
    assert k in q <==> Differs(a, c, k);
    assert k in q ==> q[k] == c.fields[k];
  }

  /** Away from `c` the patch only deletes, and only what `original` had. */
  lemma PatchedElsewhere(original: Json, a: Json, live: Json, c: Json, k: string)
    requires original.Obj? && a.Obj? && live.Obj? && c.Obj? && k !in c.fields
    ensures var r := Merge(live, ThreeWayPatch(original, c, a)).fields;
            && (k in r <==> k in live.fields && k !in original.fields)
            && (k in r ==> r[k] == live.fields[k])
  {
    var d, e := DropNulls(Delta(a, c)), KeepNulls(Delta(original, c));
    assert k !in d.fields by {
      assert k in Delta(a, c).fields ==> Delta(a, c).fields[k] == Null;
    }
    assert k in e.fields <==> k in original.fields by {
      assert k in Delta(original, c).fields <==> k in original.fields;
    }
    MergeElsewhere(e, d, k);
    if k !in original.fields {
      MergeElsewhere(live, Merge(e, d), k);
    }
  }

  lemma MergeElsewhere(t: Json, p: Json, k: string)
    requires t.Obj? && p.Obj? && k !in p.fields
    ensures k in Merge(t, p).fields <==> k in t.fields
    ensures k in t.fields ==> Merge(t, p).fields[k] == t.fields[k]
  {
  }

  lemma MergeLeaf(t: Json, p: Json, k: string)
    requires t.Obj? && p.Obj? && k in p.fields && !p.fields[k].Obj? && p.fields[k] != Null
    ensures k in Merge(t, p).fields && Merge(t, p).fields[k] == p.fields[k]
  {
  }

  /** At a map of `c`, the patched document is the recursively patched map. */
  lemma PatchedMap(a: Json, live: Json, c: Json, e: Json, k: string)
    requires a.Obj? && live.Obj? && c.Obj? && e.Obj?
    requires Embedded(a, live) && k in c.fields && c.fields[k].Obj?
    requires NullFree(c) || DropNulls(c.fields[k]).fields != map[]
    requires k in e.fields ==> e.fields[k].Obj?
    ensures var r := Merge(live, Merge(e, DropNulls(Delta(a, c)))).fields;
            var dk := DropNulls(Delta(AsMap(a.fields, k), c.fields[k]));
            k in r && r[k] == Merge(AsMap(live.fields, k), Merge(AsMap(e.fields, k), dk))
  {
    var ck, ek := c.fields[k], AsMap(e.fields, k);
    var dk := DropNulls(Delta(AsMap(a.fields, k), ck));
    var d := DropNulls(Delta(a, c)).fields;
    AdditionsAt(a, c, k);
    var p := Merge(e, Obj(d)).fields;
    MergeIntoAnything(if k in e.fields then e.fields[k] else Null, dk);
    MergeNothing(ek);
    if k in d || k in e.fields {
      assert k in p && p[k] == Merge(ek, dk);
      MergeIntoAnything(if k in live.fields then live.fields[k] else Null, p[k]);
    } else {
      MergeNothing(live.fields[k]);
    }
  }

  /** A non-map target counts as the empty map. */
  lemma MergeIntoAnything(t: Json, p: Json)
    requires p.Obj?
    ensures Merge(t, p) == Merge(if t.Obj? then t else Obj(map[]), p)
  {
  }

  /** The additions at a map of `c`; left out only when there are none. */
  lemma AdditionsAt(a: Json, c: Json, k: string)
    requires a.Obj? && c.Obj? && k in c.fields && c.fields[k].Obj?
    requires NullFree(c) || DropNulls(c.fields[k]).fields != map[]
    ensures var d := DropNulls(Delta(a, c)).fields;
            var dk := DropNulls(Delta(AsMap(a.fields, k), c.fields[k]));
            if k in d then d[k] == dk
            else dk.fields == map[] && k in a.fields && a.fields[k].Obj?
  {
    var ck := c.fields[k];
    if !(k in a.fields && a.fields[k].Obj?) {
      assert Delta(Obj(map[]), ck).fields == ck.fields;
      if NullFree(c) {
        DropNullsFromNullFree(ck);
      }
    }
  }

  /** The deletions at a map of `c`. */
  lemma DeletionsAt(original: Json, c: Json, k: string)
    requires original.Obj? && c.Obj? && k in c.fields && c.fields[k].Obj?
    ensures AsMap(KeepNulls(Delta(original, c)).fields, k)
         == KeepNulls(Delta(AsMap(original.fields, k), c.fields[k]))
  {
    var ck := c.fields[k];
    if !(k in original.fields && original.fields[k].Obj?) {
      assert Delta(Obj(map[]), ck).fields == ck.fields;
    }
  }

  /** Every leaf and list of `c` is live's own, or is what `a` shows of live. */
  ghost predicate Held(a: Json, c: Json, live: Json)
    requires a.Obj? && c.Obj? && live.Obj?
    decreases c, 1
  {
    forall k :: k in c.fields ==> HeldAt(a, c, live, k)
  }

  ghost predicate HeldAt(a: Json, c: Json, live: Json, k: string)
    requires a.Obj? && c.Obj? && live.Obj? && k in c.fields
    decreases c, 0
  {
    && k in live.fields
    && if c.fields[k].Obj? then live.fields[k].Obj? && Held(AsMap(a.fields, k), c.fields[k], live.fields[k])
       else live.fields[k] == c.fields[k] || (k in a.fields && a.fields[k] == c.fields[k])
  }

  /** Live has nothing left that `original` had and `c` dropped. */
  ghost predicate NothingLeft(original: Json, c: Json, live: Json)
    requires original.Obj? && c.Obj? && live.Obj?
    decreases c, 1
  {
    && (forall k :: k in original.fields && k !in c.fields ==> k !in live.fields)
    && (forall k :: k in c.fields ==> NothingLeftAt(original, c, live, k))
  }

  ghost predicate NothingLeftAt(original: Json, c: Json, live: Json, k: string)
    requires original.Obj? && c.Obj? && live.Obj? && k in c.fields
    decreases c, 0
  {
    c.fields[k].Obj? ==> NothingLeft(AsMap(original.fields, k), c.fields[k], AsMap(live.fields, k))
  }

  lemma SameEverywhere(r: Fields, s: Fields)
    requires forall k :: SameAt(r, s, k)
    ensures r == s
  {
    assert forall k :: SameAt(r, s, k) ==> (k in r <==> k in s);
  }

  /** The three-way patch leaves live alone exactly when live holds `c` and
      nothing that `c` dropped. */
  lemma {:induction false} PatchIsNoOpExactly(original: Json, a: Json, c: Json, live: Json)
    requires original.Obj? && a.Obj? && c.Obj? && live.Obj?
    requires NullFree(c) && Embedded(a, live)
    ensures Merge(live, ThreeWayPatch(original, c, a)) == live <==>
            (Held(a, c, live) && NothingLeft(original, c, live))
    decreases c, 1
  {
    hide Merge, ThreeWayPatch, Embedded;
    var r := Merge(live, ThreeWayPatch(original, c, a)).fields;
    forall k
      ensures k in c.fields ==>
                (SameAt(r, live.fields, k) <==> HeldAt(a, c, live, k) && NothingLeftAt(original, c, live, k))
      ensures k !in c.fields ==> (SameAt(r, live.fields, k) <==> k in original.fields ==> k !in live.fields)
    {
      if k !in c.fields {
        PatchedElsewhere(original, a, live, c, k);
      } else {
        NoOpAt(original, a, c, live, k);
      }
    }
    if Held(a, c, live) && NothingLeft(original, c, live) {
      SameEverywhere(r, live.fields);
    }
    if r == live.fields {
      assert forall k :: SameAt(r, live.fields, k);
    }
  }

  lemma {:induction false} NoOpAt(original: Json, a: Json, c: Json, live: Json, k: string)
    requires original.Obj? && a.Obj? && c.Obj? && live.Obj? && k in c.fields
    requires NullFree(c) && Embedded(a, live)
    ensures SameAt(Merge(live, ThreeWayPatch(original, c, a)).fields, live.fields, k) <==>
            (HeldAt(a, c, live, k) && NothingLeftAt(original, c, live, k))
    decreases c, 0
  {
    DeletionsSpare(original, c);
    var e := KeepNulls(Delta(original, c));
    if c.fields[k].Obj? {
      PatchIsNoOpExactly(AsMap(original.fields, k), AsMap(a.fields, k), c.fields[k], AsMap(live.fields, k));
      PatchedMap(a, live, c, e, k);
      DeletionsAt(original, c, k);
    } else {
      PatchedLeafIs(a, live, c, e, k);
    }
  }

  lemma {:induction false} NothingLeftOfItself(c: Json, live: Json)
    requires c.Obj? && live.Obj?
    ensures NothingLeft(c, c, live)
    decreases c
  {
    forall k | k in c.fields
      ensures NothingLeftAt(c, c, live, k)
    {
      if c.fields[k].Obj? {
        NothingLeftOfItself(c.fields[k], AsMap(live.fields, k));
      }
    }
  }

  /** With `c` itself as the original, holding `c` is embedding it. */
  lemma {:induction false} HeldViaOwnProjection(c: Json, live: Json)
    requires c.Obj? && live.Obj?
    ensures Held(Project(c, live), c, live) <==> Embedded(c, live)
    decreases c
  {
    var a := Project(c, live);
    forall k | k in c.fields
      ensures HeldAt(a, c, live, k) <==> k in live.fields && Embedded(c.fields[k], live.fields[k])
    {
      if k in live.fields {
        var ck, lk := c.fields[k], live.fields[k];
        if ck.Obj? && lk.Obj? {
          HeldViaOwnProjection(ck, lk);
          assert AsMap(a.fields, k) == Project(ck, lk);
        } else if !ck.Obj? {
          ProjectionFixesEmbedded(ck, lk);
          if lk == ck {
            EmbeddedReflexive(ck);
          }
        }
      }
    }
    if Embedded(c, live) {
      assert forall k :: k in c.fields ==> HeldAt(a, c, live, k);
    }
    if Held(a, c, live) {
      assert forall k :: k in c.fields ==> HeldAt(a, c, live, k);
    }
  }

  /** `p` writes only what `c` has, and never a deletion. */
  predicate Within(p: Json, c: Json)
    requires p.Obj? && c.Obj?
    decreases c
  {
    forall k :: k in p.fields ==>
      && k in c.fields && p.fields[k] != Null
      && (c.fields[k].Obj? ==> p.fields[k].Obj? && Within(p.fields[k], c.fields[k]))
  }

  lemma {:induction false} NullFreeWithinItself(c: Json)
    requires c.Obj? && NullFree(c)
    ensures Within(c, c)
  {
    forall k | k in c.fields && c.fields[k].Obj?
      ensures Within(c.fields[k], c.fields[k])
    {
      NullFreeWithinItself(c.fields[k]);
    }
  }

  lemma {:induction false} AdditionsWithin(a: Json, c: Json)
    requires a.Obj? && c.Obj? && NullFree(c)
    ensures Within(DropNulls(Delta(a, c)), c)
    decreases c
  {
    var d := DropNulls(Delta(a, c)).fields;
    forall k | k in d
      ensures k in c.fields && d[k] != Null
      ensures c.fields[k].Obj? ==> d[k].Obj? && Within(d[k], c.fields[k])
    {
      assert k in Delta(a, c).fields && Delta(a, c).fields[k] != Null;
      if c.fields[k].Obj? {
        AdditionsAt(a, c, k);
        AdditionsWithin(AsMap(a.fields, k), c.fields[k]);
      } else {
        LeafAddition(a, c, k);
      }
    }
  }

  lemma {:induction false} MergedWithin(p: Json, c: Json)
    requires p.Obj? && c.Obj? && Within(p, c)
    ensures Within(Merge(Obj(map[]), p), c)
    decreases c
  {
    forall k | k in p.fields && c.fields[k].Obj?
      ensures Merge(Null, p.fields[k]).Obj? && Within(Merge(Null, p.fields[k]), c.fields[k])
    {
      MergedWithin(p.fields[k], c.fields[k]);
      MergeIntoAnything(Null, p.fields[k]);
    }
  }

  /** With no separate original there is nothing to delete. */
  lemma OwnPatchWithin(a: Json, c: Json)
    requires a.Obj? && c.Obj? && NullFree(c)
    ensures Within(ThreeWayPatch(c, c, a), c)
  {
    NoSelfDelta(c);
    assert KeepNulls(Delta(c, c)) == Obj(map[]);
    AdditionsWithin(a, c);
    MergedWithin(DropNulls(Delta(a, c)), c);
  }

  /** A patch within `c` keeps every live value on a path `c` does not mention. */
  lemma {:induction false} MergeKeepsUnmentioned(live: Json, p: Json, c: Json, path: seq<string>)
    requires live.Obj? && p.Obj? && c.Obj? && Within(p, c)
    requires !Mentions(c, path) && Lookup(live, path).Some?
    ensures Lookup(Merge(live, p), path) == Lookup(live, path)
    decreases path
  {
    var k := path[0];
    if k in p.fields {
      var ck, lk := c.fields[k], live.fields[k];
      assert !Mentions(ck, path[1..]) && ck.Obj? && lk.Obj?;
      MergeKeepsUnmentioned(lk, p.fields[k], ck, path[1..]);
      assert Merge(live, p).fields[k] == Merge(lk, p.fields[k]);
    }
  }

  // ------------------------------------------------------- documents with nulls

  predicate Leaf(j: Json) {
    !j.Obj? && j != Null
  }

  /** Dropping nulls keeps what is not one. */
  lemma {:induction false} LeavesStay(c: Json, path: seq<string>)
    requires c.Obj? && path != [] && Lookup(c, path).Some? && Leaf(Lookup(c, path).value)
    ensures path[0] in DropNulls(c).fields
    decreases path
  {
    var ck := c.fields[path[0]];
    if |path| > 1 {
      LeavesStay(ck, path[1..]);
    }
  }

  /** Nulls elsewhere in the configuration or not, every leaf or list of it is
      embedded in what patching makes of the live document. */
  lemma {:induction false} PatchedPath(original: Json, a: Json, live: Json, c: Json, path: seq<string>)
    requires original.Obj? && a.Obj? && live.Obj? && c.Obj? && Embedded(a, live)
    requires path != [] && Lookup(c, path).Some? && Leaf(Lookup(c, path).value)
    ensures var r := Merge(live, ThreeWayPatch(original, c, a));
            Lookup(r, path).Some? && Embedded(Lookup(c, path).value, Lookup(r, path).value)
    decreases path
  {
    var k, e := path[0], KeepNulls(Delta(original, c));
    if |path| == 1 {
      assert path[1..] == [];
      PatchedLeaf(a, live, c, e, k);
    } else {
      assert path[1..] != [];
      LeavesStay(c.fields[k], path[1..]);
      DeletionsAt(original, c, k);
      PatchedMap(a, live, c, e, k);
      PatchedPath(AsMap(original.fields, k), AsMap(a.fields, k), AsMap(live.fields, k), c.fields[k], path[1..]);
    }
  }
}
