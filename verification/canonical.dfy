/** When the order in which map keys are visited shows in the manifest. */
module Canonical {
  import opened Json
  import opened Objects
  import opened Sorting
  import opened Build

  /** What the objects found contribute to the manifest. */
  type Contribution = Json -> Option<seq<Object>>

  /** Of what a walk contributes, the objects that tie with `x`, in order. */
  function Part(f: Contribution, x: Object, walked: seq<Json>): seq<Object> {
    Tied(Flatten(Map(f, walked)), x, Less)
  }

  lemma PartConcat(f: Contribution, x: Object, a: seq<Json>, b: seq<Json>)
    ensures Part(f, x, a + b) == Part(f, x, a) + Part(f, x, b)
  {
    hide Flatten, Tied;
    assert Map(f, a + b) == Map(f, a) + Map(f, b);
    FlattenConcat(Map(f, a), Map(f, b));
    TiedConcat(Flatten(Map(f, a)), Flatten(Map(f, b)), x, Less);
  }

  /** Whatever the walk, the objects that tie with `x` come in one order. */
  ghost predicate Fixed(f: Contribution, x: Object, j: Json) {
    forall a, b :: Walks(j, a) && Walks(j, b) ==> Part(f, x, a) == Part(f, x, b)
  }

  ghost predicate FixedMap(f: Contribution, x: Object, whole: Json, m: Fields)
    requires PartOf(whole, m)
  {
    forall a, b :: WalksMap(whole, m, a) && WalksMap(whole, m, b) ==> Part(f, x, a) == Part(f, x, b)
  }

  ghost predicate FixedList(f: Contribution, x: Object, whole: Json, n: nat)
    requires whole.Arr? && n <= |whole.items|
  {
    forall a, b :: WalksList(whole, n, a) && WalksList(whole, n, b) ==> Part(f, x, a) == Part(f, x, b)
  }

  /** What two documents contribute reads the same in both orders. */
  ghost predicate Commute(f: Contribution, x: Object, i: Json, j: Json) {
    forall a, b :: Walks(i, a) && Walks(j, b) ==> Part(f, x, a) + Part(f, x, b) == Part(f, x, b) + Part(f, x, a)
  }

  /** Of every map above the objects, any two fields commute. */
  ghost predicate Settled(f: Contribution, x: Object, j: Json) {
    match j
    case Obj(m) => IsObject(j) || ((forall k :: k in m ==> Settled(f, x, m[k])) && FieldsCommute(f, x, m))
    case Arr(s) => forall i :: 0 <= i < |s| ==> Settled(f, x, s[i])
    case _ => true
  }

  ghost predicate FieldsCommute(f: Contribution, x: Object, m: Fields) {
    forall k, l :: k in m && l in m && k != l ==> Commute(f, x, m[k], m[l])
  }

  // ---------------------------------------------------------- some walk exists

  lemma {:induction false} WalkExists(j: Json) returns (r: seq<Json>)
    requires Walkable(j)
    ensures Walks(j, r)
    decreases j, 1
  {
    match j {
      case Obj(m) =>
        if IsObject(j) {
          r := [j];
        } else {
          r := MapWalkExists(j, m);
        }
      case Arr(s) => r := ListWalkExists(j, |s|);
      case _ => r := [];
    }
  }

  lemma {:induction false} MapWalkExists(whole: Json, m: Fields) returns (r: seq<Json>)
    requires PartOf(whole, m) && forall k :: k in m ==> Walkable(m[k])
    ensures WalksMap(whole, m, r)
    decreases whole, 0, |m|
  {
    if m == map[] {
      r := [];
    } else {
      var k :| k in m;
      var a := WalkExists(m[k]);
      var b := MapWalkExists(whole, m - {k});
      KeyFirst(whole, m, k, a, b);
      r := a + b;
    }
  }

  lemma {:induction false} ListWalkExists(whole: Json, n: nat) returns (r: seq<Json>)
    requires whole.Arr? && n <= |whole.items| && forall i :: 0 <= i < n ==> Walkable(whole.items[i])
    ensures WalksList(whole, n, r)
    decreases whole, 0, n
  {
    if n == 0 {
      r := [];
    } else {
      var a := ListWalkExists(whole, n - 1);
      var b := WalkExists(whole.items[n - 1]);
      ElementLast(whole, n, a, b);
      r := a + b;
    }
  }

  // --------------------------------------------------------- settled means fixed

  lemma FirstKey(whole: Json, m: Fields, r: seq<Json>) returns (k: string, a: seq<Json>, b: seq<Json>)
    requires PartOf(whole, m) && m != map[] && WalksMap(whole, m, r)
    ensures k in m && r == a + b && Walks(m[k], a) && WalksMap(whole, m - {k}, b)
  {
    k, a, b :| k in m && r == a + b && Walks(m[k], a) && WalksMap(whole, m - {k}, b);
  }

  lemma WithoutTwo(m: Fields, k: string, l: string)
    ensures m - {k} - {l} == m - {l} - {k}
  {
  }

  /** Where fields commute, any of them may as well be visited first. */
  lemma {:induction false} ToTheFront(f: Contribution, x: Object, whole: Json, m: Fields, k: string, r: seq<Json>)
    returns (a: seq<Json>, b: seq<Json>)
    requires PartOf(whole, m) && FieldsCommute(f, x, m) && k in m && WalksMap(whole, m, r)
    ensures Walks(m[k], a) && WalksMap(whole, m - {k}, b) && Part(f, x, r) == Part(f, x, a) + Part(f, x, b)
    decreases |m|
  {
    hide Part, Walks, WalksMap;
    var l, c, d := FirstKey(whole, m, r);
    PartConcat(f, x, c, d);
    if l == k {
      a, b := c, d;
    } else {
      var e: seq<Json>;
      a, e := ToTheFront(f, x, whole, m - {l}, k, d);
      assert Commute(f, x, m[k], m[l]);
      WithoutTwo(m, k, l);
      KeyFirst(whole, m - {k}, l, c, e);
      b := c + e;
      PartConcat(f, x, c, e);
      Regroup(Part(f, x, c), Part(f, x, a), Part(f, x, e));
    }
  }

  lemma Regroup<T>(p: seq<T>, q: seq<T>, r: seq<T>)
    requires p + q == q + p
    ensures p + (q + r) == q + (p + r)
  {
    assert p + (q + r) == (p + q) + r;
    assert (q + p) + r == q + (p + r);
  }

  lemma EmptyWalk(whole: Json, r: seq<Json>)
    requires PartOf(whole, map[]) && WalksMap(whole, map[], r)
    ensures r == []
  {
  }

  lemma FewerFields(f: Contribution, x: Object, whole: Json, m: Fields, k: string)
    requires PartOf(whole, m) && FieldsCommute(f, x, m) && k in m
    ensures PartOf(whole, m - {k}) && FieldsCommute(f, x, m - {k}) && |m - {k}| < |m|
  {
  }

  lemma FixedPart(f: Contribution, x: Object, j: Json, a: seq<Json>, b: seq<Json>)
    requires Fixed(f, x, j) && Walks(j, a) && Walks(j, b)
    ensures Part(f, x, a) == Part(f, x, b)
  {
  }

  lemma {:induction false} SettledMapFixed(f: Contribution, x: Object, whole: Json, m: Fields)
    requires PartOf(whole, m) && FieldsCommute(f, x, m) && forall k :: k in m ==> Fixed(f, x, m[k])
    ensures FixedMap(f, x, whole, m)
    decreases |m|
  {
    hide Part, Walks, WalksMap, FieldsCommute, PartOf, Fixed;
    forall r, s | WalksMap(whole, m, r) && WalksMap(whole, m, s) ensures Part(f, x, r) == Part(f, x, s) {
      if m == map[] {
        EmptyWalk(whole, r);
        EmptyWalk(whole, s);
      } else {
        var k, a, b := FirstKey(whole, m, r);
        var c, d := ToTheFront(f, x, whole, m, k, s);
        PartConcat(f, x, a, b);
        FewerFields(f, x, whole, m, k);
        SettledMapFixed(f, x, whole, m - {k});
        FixedPart(f, x, m[k], a, c);
        assert Part(f, x, a) == Part(f, x, c) && Part(f, x, b) == Part(f, x, d);
      }
    }
  }

  lemma {:induction false} FixedItems(f: Contribution, x: Object, whole: Json, n: nat)
    requires whole.Arr? && n <= |whole.items| && forall i :: 0 <= i < n ==> Fixed(f, x, whole.items[i])
    ensures FixedList(f, x, whole, n)
  {
    hide Part, Walks;
    forall r, s | WalksList(whole, n, r) && WalksList(whole, n, s) ensures Part(f, x, r) == Part(f, x, s) {
      if n > 0 {
        var a, b :| r == a + b && WalksList(whole, n - 1, a) && Walks(whole.items[n - 1], b);
        var c, d :| s == c + d && WalksList(whole, n - 1, c) && Walks(whole.items[n - 1], d);
        PartConcat(f, x, a, b);
        PartConcat(f, x, c, d);
        FixedItems(f, x, whole, n - 1);
        assert Fixed(f, x, whole.items[n - 1]) && Part(f, x, b) == Part(f, x, d);
      }
    }
  }

  lemma {:induction false} SettledIsFixed(f: Contribution, x: Object, j: Json)
    requires Settled(f, x, j)
    ensures Fixed(f, x, j)
  {
    match j {
      case Obj(m) =>
        if !IsObject(j) {
          forall k | k in m ensures Fixed(f, x, m[k]) {
            SettledIsFixed(f, x, m[k]);
          }
          SettledMapFixed(f, x, j, m);
        }
      case Arr(s) =>
        forall i | 0 <= i < |s| ensures Fixed(f, x, s[i]) {
          SettledIsFixed(f, x, s[i]);
        }
        FixedItems(f, x, j, |s|);
      case _ =>
    }
  }

  // --------------------------------------------------------- fixed means settled

  /** Equal lists of which the ends, or the beginnings, of equal length agree. */
  lemma SplitEqually<T>(a: seq<T>, b: seq<T>, c: seq<T>, d: seq<T>)
    requires a + b == c + d && (|a| == |c| || |b| == |d|)
    ensures a == c && b == d
  {
    assert |a + b| == |a| + |b| && |c + d| == |c| + |d|;
    assert a == (a + b)[..|a|] && c == (c + d)[..|c|];
    assert b == (a + b)[|a|..] && d == (c + d)[|c|..];
  }

  lemma FixedField(f: Contribution, x: Object, whole: Json, m: Fields, k: string)
    requires PartOf(whole, m) && (forall l :: l in m ==> Walkable(m[l])) && FixedMap(f, x, whole, m) && k in m
    ensures Fixed(f, x, m[k])
  {
    hide Part, Walks, Walkable;
    var r := MapWalkExists(whole, m - {k});
    forall a, b | Walks(m[k], a) && Walks(m[k], b) ensures Part(f, x, a) == Part(f, x, b) {
      KeyFirst(whole, m, k, a, r);
      KeyFirst(whole, m, k, b, r);
      PartConcat(f, x, a, r);
      PartConcat(f, x, b, r);
      SplitEqually(Part(f, x, a), Part(f, x, r), Part(f, x, b), Part(f, x, r));
    }
  }

  lemma FixedFieldsCommute(f: Contribution, x: Object, whole: Json, m: Fields, k: string, l: string)
    requires PartOf(whole, m) && (forall n :: n in m ==> Walkable(m[n])) && FixedMap(f, x, whole, m)
    requires k in m && l in m && k != l
    ensures Commute(f, x, m[k], m[l])
  {
    hide Part, Walks, Walkable;
    var r := MapWalkExists(whole, m - {k} - {l});
    assert m - {k} - {l} == m - {l} - {k};
    forall a, b | Walks(m[k], a) && Walks(m[l], b)
      ensures Part(f, x, a) + Part(f, x, b) == Part(f, x, b) + Part(f, x, a)
    {
      KeyFirst(whole, m - {k}, l, b, r);
      KeyFirst(whole, m, k, a, b + r);
      KeyFirst(whole, m - {l}, k, a, r);
      KeyFirst(whole, m, l, b, a + r);
      var p, q, s := Part(f, x, a), Part(f, x, b), Part(f, x, r);
      ThreeParts(f, x, a, b, r);
      ThreeParts(f, x, b, a, r);
      SplitEqually(p + q, s, q + p, s);
    }
  }

  lemma ThreeParts(f: Contribution, x: Object, a: seq<Json>, b: seq<Json>, c: seq<Json>)
    ensures Part(f, x, a + (b + c)) == Part(f, x, a) + Part(f, x, b) + Part(f, x, c)
  {
    hide Part;
    PartConcat(f, x, a, b + c);
    PartConcat(f, x, b, c);
    assert Part(f, x, a) + (Part(f, x, b) + Part(f, x, c)) == Part(f, x, a) + Part(f, x, b) + Part(f, x, c);
  }

  lemma {:induction false} FixedElements(f: Contribution, x: Object, whole: Json, n: nat, i: nat)
    requires whole.Arr? && i < n <= |whole.items| && forall m :: 0 <= m < n ==> Walkable(whole.items[m])
    requires FixedList(f, x, whole, n)
    ensures Fixed(f, x, whole.items[i])
    decreases n
  {
    hide Part, Walks, Walkable;
    if i == n - 1 {
      var r := ListWalkExists(whole, n - 1);
      forall a, b | Walks(whole.items[i], a) && Walks(whole.items[i], b) ensures Part(f, x, a) == Part(f, x, b) {
        ElementLast(whole, n, r, a);
        ElementLast(whole, n, r, b);
        PartConcat(f, x, r, a);
        PartConcat(f, x, r, b);
        SplitEqually(Part(f, x, r), Part(f, x, a), Part(f, x, r), Part(f, x, b));
      }
    } else {
      var r := WalkExists(whole.items[n - 1]);
      forall a, b | WalksList(whole, n - 1, a) && WalksList(whole, n - 1, b) ensures Part(f, x, a) == Part(f, x, b) {
        ElementLast(whole, n, a, r);
        ElementLast(whole, n, b, r);
        PartConcat(f, x, a, r);
        PartConcat(f, x, b, r);
        SplitEqually(Part(f, x, a), Part(f, x, r), Part(f, x, b), Part(f, x, r));
      }
      FixedElements(f, x, whole, n - 1, i);
    }
  }

  lemma {:induction false} FixedIsSettled(f: Contribution, x: Object, j: Json)
    requires Walkable(j) && Fixed(f, x, j)
    ensures Settled(f, x, j)
  {
    match j {
      case Obj(m) =>
        if !IsObject(j) {
          assert FixedMap(f, x, j, m);
          forall k | k in m ensures Settled(f, x, m[k]) {
            FixedField(f, x, j, m, k);
            FixedIsSettled(f, x, m[k]);
          }
          forall k, l | k in m && l in m && k != l ensures Commute(f, x, m[k], m[l]) {
            FixedFieldsCommute(f, x, j, m, k, l);
          }
        }
      case Arr(s) =>
        assert FixedList(f, x, j, |s|);
        forall i | 0 <= i < |s| ensures Settled(f, x, s[i]) {
          FixedElements(f, x, j, |s|, i);
          FixedIsSettled(f, x, s[i]);
        }
      case _ =>
    }
  }

  // -------------------------------------------------------------- the manifest

  /** All builds of a document sort to one manifest. */
  ghost predicate OneManifest(root: Json, mapper: Option<GVK -> Scope>, ns: string) {
    forall a, b :: BuiltFrom(root, mapper, ns, a) && BuiltFrom(root, mapper, ns, b) ==>
        StableSort(a, Less) == StableSort(b, Less)
  }

  ghost predicate AllFixed(root: Json, mapper: Option<GVK -> Scope>, ns: string) {
    forall x :: Fixed(Contributed(mapper, ns), x, root)
  }

  lemma OneManifestIfFixed(root: Json, mapper: Option<GVK -> Scope>, ns: string)
    ensures OneManifest(root, mapper, ns) <==> AllFixed(root, mapper, ns)
  {
    hide Walks, StableSort, Flatten, Tied;
    var f := Contributed(mapper, ns);
    LessOrders();
    if AllFixed(root, mapper, ns) {
      forall a, b | BuiltFrom(root, mapper, ns, a) && BuiltFrom(root, mapper, ns, b)
        ensures StableSort(a, Less) == StableSort(b, Less)
      {
        var v :| Walks(root, v) && a == Flatten(Map(f, v));
        var w :| Walks(root, w) && b == Flatten(Map(f, w));
        forall x ensures Tied(a, x, Less) == Tied(b, x, Less) {
          assert Fixed(f, x, root) && Part(f, x, v) == Part(f, x, w);
        }
        SameSortExactly(a, b, Less);
      }
    }
    if OneManifest(root, mapper, ns) {
      forall x ensures Fixed(f, x, root) {
        forall v, w | Walks(root, v) && Walks(root, w) ensures Part(f, x, v) == Part(f, x, w) {
          var a, b := Flatten(Map(f, v)), Flatten(Map(f, w));
          assert BuiltFrom(root, mapper, ns, a) && BuiltFrom(root, mapper, ns, b);
          SameSortExactly(a, b, Less);
          assert Tied(a, x, Less) == Tied(b, x, Less);
        }
      }
    }
  }

  ghost predicate AllSettled(root: Json, mapper: Option<GVK -> Scope>, ns: string) {
    forall x :: Settled(Contributed(mapper, ns), x, root)
  }

  /** With a stable sort, the manifest depends only on the document exactly when,
      of every map above the objects, any two fields contribute their tied
      objects alike in both orders. */
  lemma OneManifestExactly(root: Json, mapper: Option<GVK -> Scope>, ns: string)
    requires Walkable(root)
    ensures OneManifest(root, mapper, ns) <==> AllSettled(root, mapper, ns)
  {
    hide Fixed, Settled, Walkable, Contributed, OneManifest;
    var f := Contributed(mapper, ns);
    OneManifestIfFixed(root, mapper, ns);
    forall x ensures Fixed(f, x, root) <==> Settled(f, x, root) {
      if Fixed(f, x, root) {
        FixedIsSettled(f, x, root);
      }
      if Settled(f, x, root) {
        SettledIsFixed(f, x, root);
      }
    }
  }

  ghost function Manifests(root: Json, mapper: Option<GVK -> Scope>, ns: string): iset<seq<Object>> {
    iset a | BuiltFrom(root, mapper, ns, a) :: StableSort(a, Less)
  }

  lemma IsManifest(root: Json, mapper: Option<GVK -> Scope>, ns: string, a: seq<Object>)
    requires BuiltFrom(root, mapper, ns, a)
    ensures StableSort(a, Less) in Manifests(root, mapper, ns)
  {
  }

  /** So does the checksum, if the manifests do not collide under it. */
  lemma OneChecksumExactly(root: Json, mapper: Option<GVK -> Scope>, ns: string, checksum: seq<Object> -> string)
    requires Walkable(root)
    requires Injective(checksum, Manifests(root, mapper, ns))
    ensures (forall a, b :: BuiltFrom(root, mapper, ns, a) && BuiltFrom(root, mapper, ns, b) ==>
               checksum(StableSort(a, Less)) == checksum(StableSort(b, Less)))
       <==> AllSettled(root, mapper, ns)
  {
    hide StableSort, BuiltFrom, AllSettled, Walkable, Manifests;
    OneManifestExactly(root, mapper, ns);
    if forall a, b :: BuiltFrom(root, mapper, ns, a) && BuiltFrom(root, mapper, ns, b) ==>
         checksum(StableSort(a, Less)) == checksum(StableSort(b, Less))
    {
      forall a, b | BuiltFrom(root, mapper, ns, a) && BuiltFrom(root, mapper, ns, b)
        ensures StableSort(a, Less) == StableSort(b, Less)
      {
        IsManifest(root, mapper, ns, a);
        IsManifest(root, mapper, ns, b);
        assert checksum(StableSort(a, Less)) == checksum(StableSort(b, Less));
      }
    }
  }

  /** Two different objects that tie, under two keys of one map, spoil it. */
  lemma TiedKeysShow(m: Fields, mapper: Option<GVK -> Scope>, ns: string, k: string, l: string, x: Object, y: Object)
    requires Walkable(Obj(m)) && !IsObject(Obj(m)) && k in m && l in m && k != l && IsObject(m[k]) && IsObject(m[l])
    requires Contributed(mapper, ns)(m[k]) == Some([x]) && Contributed(mapper, ns)(m[l]) == Some([y])
    requires x != y && Rank(x) == Rank(y) && SortKey(x) == SortKey(y)
    ensures !OneManifest(Obj(m), mapper, ns)
  {
    hide Contributed, Walkable, OneManifest, Part, Less;
    var f := Contributed(mapper, ns);
    TieIsSameRankAndKey(x, y);
    TieIsSameRankAndKey(x, x);
    OnePart(f, x, m[k], x);
    OnePart(f, x, m[l], y);
    assert Walks(m[k], [m[k]]) && Walks(m[l], [m[l]]);
    assert ([x] + [y])[0] != ([y] + [x])[0];
    assert !Commute(f, x, m[k], m[l]);
    assert !FieldsCommute(f, x, m);
    assert !Settled(f, x, Obj(m));
    OneManifestExactly(Obj(m), mapper, ns);
  }

  lemma OnePart(f: Contribution, x: Object, j: Json, y: Object)
    requires f(j) == Some([y]) && Tie(y, x, Less)
    ensures Part(f, x, [j]) == [y]
  {
    hide Less;
    FlattenOne(f(j));
    assert Map(f, [j]) == [f(j)];
    TiedCons(y, [], x, Less);
    assert [y] + [] == [y];
  }

  /** A document of an object named y/x. */
  function Named(kind: string): Json {
    Obj(map["kind" := Str(kind), "apiVersion" := Str("v1"),
            "metadata" := Obj(map["namespace" := Str("y"), "name" := Str("x")])])
  }

  lemma NamedContribution(kind: string)
    ensures var o := Wrap(Named(kind).fields);
            && IsObject(Named(kind)) && Contributed(None, "y")(Named(kind)) == Some([o])
            && o.kind == kind && o.ns == "y" && o.name == "x"
  {
    var f := Named(kind).fields;
    assert "items" !in f;
    assert MapField(f, "metadata") == map["namespace" := Str("y"), "name" := Str("x")];
  }

  /** Such as a Deployment and a Service of one name. */
  lemma SharedNameShows()
    ensures !OneManifest(Obj(map["deploy" := Named("Deployment"), "svc" := Named("Service")]), None, "y")
  {
    hide Named, Wrap, Contributed, OneManifest;
    var m := map["deploy" := Named("Deployment"), "svc" := Named("Service")];
    NamedContribution("Deployment");
    NamedContribution("Service");
    assert "kind" !in m;
    TiedKeysShow(m, None, "y", "deploy", "svc", Wrap(Named("Deployment").fields), Wrap(Named("Service").fields));
  }

  /** Lists above the objects only. */
  predicate OnlyLists(j: Json) {
    match j
    case Obj(_) => IsObject(j)
    case Arr(s) => forall i :: 0 <= i < |s| ==> OnlyLists(s[i])
    case _ => true
  }

  lemma {:induction false} ListsSettled(f: Contribution, x: Object, j: Json)
    requires OnlyLists(j)
    ensures Settled(f, x, j)
  {
    if j.Arr? {
      forall i | 0 <= i < |j.items| ensures Settled(f, x, j.items[i]) {
        ListsSettled(f, x, j.items[i]);
      }
    }
  }

  /** Lists keep their order: ties in them do no harm. */
  lemma ListsAreCanonical(root: Json, mapper: Option<GVK -> Scope>, ns: string)
    requires Walkable(root) && OnlyLists(root)
    ensures OneManifest(root, mapper, ns)
  {
    forall x ensures Settled(Contributed(mapper, ns), x, root) {
      ListsSettled(Contributed(mapper, ns), x, root);
    }
    OneManifestExactly(root, mapper, ns);
  }
}
