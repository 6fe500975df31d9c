/** The topmost objects of a document, told by paths. */
module Paths {
  import opened Json
  import opened Build

  datatype Hop = Field(key: string) | Index(i: nat)

  /** What a path leads to. */
  function Along(j: Json, path: seq<Hop>): Option<Json> {
    if path == [] then Some(j)
    else
      match path[0]
      case Field(k) => if j.Obj? && k in j.fields then Along(j.fields[k], path[1..]) else None
      case Index(i) => if j.Arr? && i < |j.items| then Along(j.items[i], path[1..]) else None
  }

  predicate Names(j: Json, k: string) {
    Lookup(j, [k]).Some? && Lookup(j, [k]) != Some(Null)
  }

  /** Nothing on the way has a kind and an apiVersion, the end aside. */
  ghost predicate NoneAbove(root: Json, path: seq<Hop>) {
    forall n :: 0 <= n < |path| ==>
      var x := Along(root, path[..n]); x.Some? && !(Names(x.value, "kind") && Names(x.value, "apiVersion"))
  }

  ghost predicate TopmostAt(root: Json, path: seq<Hop>, x: Json) {
    Along(root, path) == Some(x) && Names(x, "kind") && Names(x, "apiVersion") && NoneAbove(root, path)
  }

  lemma IsObjectByNames(j: Json)
    ensures IsObject(j) <==> Names(j, "kind") && Names(j, "apiVersion")
  {
    OneHop(j, "kind");
    OneHop(j, "apiVersion");
  }

  lemma OneHop(j: Json, k: string)
    ensures Lookup(j, [k]) == if j.Obj? && k in j.fields then Some(j.fields[k]) else None
  {
    assert [k][1..] == [];
    if j.Obj? && k in j.fields {
      assert Lookup(j.fields[k], []) == Some(j.fields[k]);
    }
  }

  /** A path past its first hop. */
  lemma NoneAboveBelow(root: Json, path: seq<Hop>, child: Json)
    requires path != [] && Along(root, [path[0]]) == Some(child)
    ensures NoneAbove(root, path) <==> !IsObject(root) && NoneAbove(child, path[1..])
    ensures Along(root, path) == Along(child, path[1..])
  {
    hide Names;
    IsObjectByNames(root);
    assert path[..0] == [];
    FirstHop(root, path, child);
    forall n | 0 <= n < |path| - 1 ensures Along(root, path[..n + 1]) == Along(child, path[1..][..n]) {
      FirstHop(root, path[..n + 1], child);
      assert path[..n + 1][1..] == path[1..][..n] && path[..n + 1][0] == path[0];
    }
    if NoneAbove(root, path) {
      forall n | 0 <= n < |path[1..]|
        ensures var x := Along(child, path[1..][..n]);
                x.Some? && !(Names(x.value, "kind") && Names(x.value, "apiVersion"))
      {
        assert Along(root, path[..n + 1]) == Along(child, path[1..][..n]);
      }
    }
    if !IsObject(root) && NoneAbove(child, path[1..]) {
      forall n | 0 <= n < |path|
        ensures var x := Along(root, path[..n]); x.Some? && !(Names(x.value, "kind") && Names(x.value, "apiVersion"))
      {
        if n > 0 {
          assert Along(root, path[..n - 1 + 1]) == Along(child, path[1..][..n - 1]);
        }
      }
    }
  }

  lemma FirstHop(root: Json, path: seq<Hop>, child: Json)
    requires path != [] && Along(root, [path[0]]) == Some(child)
    ensures Along(root, path) == Along(child, path[1..])
  {
    assert [path[0]][1..] == [];
  }

  lemma {:induction false} TopmostHasPath(j: Json, x: Json) returns (path: seq<Hop>)
    requires x in Topmost(j)
    ensures TopmostAt(j, path, x)
    decreases j, 1
  {
    hide Names, NoneAbove;
    IsObjectByNames(j);
    if IsObject(j) {
      path := [];
      NothingAbove(j);
    } else if j.Obj? {
      path := TopmostHasPathInMap(j, j.fields, x);
    } else {
      path := TopmostHasPathInList(j, |j.items|, x);
    }
  }

  lemma NothingAbove(j: Json)
    ensures NoneAbove(j, [])
  {
  }

  lemma {:induction false} TopmostHasPathInMap(whole: Json, f: Fields, x: Json) returns (path: seq<Hop>)
    requires PartOf(whole, f) && !IsObject(whole) && x in TopmostOfMap(whole, f)
    ensures TopmostAt(whole, path, x)
    decreases whole, 0, |f|
  {
    hide Names, NoneAbove;
    var k :| k in f && TopmostOfMap(whole, f) == Topmost(f[k]) + TopmostOfMap(whole, f - {k});
    if x in Topmost(f[k]) {
      var rest := TopmostHasPath(f[k], x);
      path := [Field(k)] + rest;
      NoneAboveBelow(whole, path, f[k]);
    } else {
      path := TopmostHasPathInMap(whole, f - {k}, x);
    }
  }

  lemma {:induction false} TopmostHasPathInList(whole: Json, n: nat, x: Json) returns (path: seq<Hop>)
    requires whole.Arr? && n <= |whole.items| && x in TopmostOfList(whole, n)
    ensures TopmostAt(whole, path, x)
    decreases whole, 0, n
  {
    hide Names, NoneAbove;
    if x in TopmostOfList(whole, n - 1) {
      path := TopmostHasPathInList(whole, n - 1, x);
    } else {
      var rest := TopmostHasPath(whole.items[n - 1], x);
      path := [Index(n - 1)] + rest;
      NoneAboveBelow(whole, path, whole.items[n - 1]);
    }
  }

  lemma {:induction false} PathLeadsToTopmost(j: Json, path: seq<Hop>, x: Json)
    requires TopmostAt(j, path, x)
    ensures x in Topmost(j)
    decreases path
  {
    hide Names, NoneAbove;
    IsObjectByNames(j);
    if path != [] {
      var child := ChildAlong(j, path);
      NoneAboveBelow(j, path, child);
      PathLeadsToTopmost(child, path[1..], x);
      if j.Obj? {
        TopmostAnyOrder(j, j.fields, path[0].key);
      } else {
        ItemInList(j, path[0].i, |j.items|, x);
      }
    }
  }

  lemma ChildAlong(j: Json, path: seq<Hop>) returns (child: Json)
    requires path != [] && Along(j, path).Some?
    ensures Along(j, [path[0]]) == Some(child)
    ensures path[0].Field? ==> j.Obj? && path[0].key in j.fields && child == j.fields[path[0].key]
    ensures path[0].Index? ==> j.Arr? && path[0].i < |j.items| && child == j.items[path[0].i]
  {
    assert [path[0]][1..] == [];
    child := if path[0].Field? then j.fields[path[0].key] else j.items[path[0].i];
  }

  lemma {:induction false} ItemInList(whole: Json, i: nat, n: nat, x: Json)
    requires whole.Arr? && i < n <= |whole.items| && x in Topmost(whole.items[i])
    ensures x in TopmostOfList(whole, n)
    decreases n
  {
    if i < n - 1 {
      ItemInList(whole, i, n - 1, x);
    }
  }

  /** A walk finds the values with a kind and an apiVersion, neither of them
      null, that no other such value is around; whatever else is around them is a
      map or a list. */
  lemma WalkFindsByPath(root: Json, r: seq<Json>, x: Json)
    requires Walks(root, r)
    ensures x in r <==> exists path :: TopmostAt(root, path, x)
  {
    hide Topmost, TopmostAt;
    WalkFindsTopmost(root, r);
    assert x in r <==> x in multiset(r);
    if x in Topmost(root) {
      var path := TopmostHasPath(root, x);
    }
    if path :| TopmostAt(root, path, x) {
      PathLeadsToTopmost(root, path, x);
    }
  }

  /** It fails exactly when something else than a map, a list or null is found
      outside of them. */
  lemma {:induction false} WalkableByPath(root: Json)
    ensures Walkable(root) <==>
              forall path, x :: Along(root, path) == Some(x) && NoneAbove(root, path) ==>
                  x.Null? || x.Obj? || x.Arr?
  {
    hide Names, NoneAbove;
    if Walkable(root) {
      forall path, x | Along(root, path) == Some(x) && NoneAbove(root, path) ensures x.Null? || x.Obj? || x.Arr? {
        WalkableAlong(root, path, x);
      }
    } else {
      var path, x := UnwalkablePath(root);
    }
  }

  lemma {:induction false} WalkableAlong(j: Json, path: seq<Hop>, x: Json)
    requires Walkable(j) && Along(j, path) == Some(x) && NoneAbove(j, path)
    ensures x.Null? || x.Obj? || x.Arr?
    decreases path
  {
    hide Names, NoneAbove;
    if path != [] {
      var child := ChildAlong(j, path);
      NoneAboveBelow(j, path, child);
      WalkableAlong(child, path[1..], x);
    }
  }

  lemma {:induction false} UnwalkablePath(j: Json) returns (path: seq<Hop>, x: Json)
    requires !Walkable(j)
    ensures Along(j, path) == Some(x) && NoneAbove(j, path) && !(x.Null? || x.Obj? || x.Arr?)
  {
    hide Names, NoneAbove;
    match j {
      case Obj(f) =>
        var k :| k in f && !Walkable(f[k]);
        path, x := UnwalkablePath(f[k]);
        path := [Field(k)] + path;
        NoneAboveBelow(j, path, f[k]);
      case Arr(s) =>
        var i :| 0 <= i < |s| && !Walkable(s[i]);
        path, x := UnwalkablePath(s[i]);
        path := [Index(i)] + path;
        NoneAboveBelow(j, path, s[i]);
      case _ =>
        path, x := [], j;
        NothingAbove(j);
    }
  }

  /** The objects of a list are found in their order. */
  lemma ListWalkedInOrder(s: seq<Json>, r: seq<Json>)
    requires forall x :: x in s ==> IsObject(x)
    ensures Walks(Arr(s), r) <==> r == s
  {
    ListWalkedUpTo(Arr(s), |s|, r);
    assert s[..|s|] == s;
  }

  lemma {:induction false} ListWalkedUpTo(whole: Json, n: nat, r: seq<Json>)
    requires whole.Arr? && n <= |whole.items| && forall x :: x in whole.items ==> IsObject(x)
    ensures WalksList(whole, n, r) <==> r == whole.items[..n]
    decreases n
  {
    hide IsObject;
    if n > 0 {
      var x, before := whole.items[n - 1], whole.items[..n - 1];
      assert whole.items[..n] == before + [x];
      if WalksList(whole, n, r) {
        var a, b :| r == a + b && WalksList(whole, n - 1, a) && Walks(x, b);
        ListWalkedUpTo(whole, n - 1, a);
        ObjectWalk(x, b);
      }
      if r == before + [x] {
        ListWalkedUpTo(whole, n - 1, before);
        ObjectWalk(x, [x]);
        ElementLast(whole, n, before, [x]);
      }
    }
  }

  lemma ObjectWalk(x: Json, r: seq<Json>)
    requires IsObject(x)
    ensures Walks(x, r) <==> r == [x]
  {
  }
}
