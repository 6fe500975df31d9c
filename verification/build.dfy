/** From evaluated JSON to a sorted list of objects: `jsonWalk`, namespace
    defaulting, `ObjectSorter` and `BuildOutput`. */
module Build {
  import opened Json
  import opened Objects
  import opened Sorting
  import opened Text

  // ---------------------------------------------------------------- sorting

  /** `Less` over the kinds that come first, in their order. */
  predicate LessAmong(first: seq<string>, a: Object, b: Object) {
    if first == [] then LexLess(a.ns + "/" + a.name, b.ns + "/" + b.name)
    else if a.kind == first[0] then b.kind == first[0] ==> LexLess(a.name, b.name)
    else b.kind != first[0] && LessAmong(first[1..], a, b)
  }

  predicate Less(a: Object, b: Object) {
    LessAmong(["Namespace", "CustomResourceDefinition"], a, b)
  }

  function Rank(o: Object): nat {
    if o.kind == "Namespace" then 0 else if o.kind == "CustomResourceDefinition" then 1 else 2
  }

  function SortKey(o: Object): string {
    if Rank(o) < 2 then o.name else o.ns + "/" + o.name
  }

  /** `Less` is the lexicographic order on rank and key; kind does not count. */
  lemma LessByRankAndKey(a: Object, b: Object)
    ensures Less(a, b) <==> Rank(a) < Rank(b) || (Rank(a) == Rank(b) && LexLess(SortKey(a), SortKey(b)))
  {
    var first := ["Namespace", "CustomResourceDefinition"];
    assert first[1..] == ["CustomResourceDefinition"] && first[1..][1..] == [];
    assert Less(a, b) == LessAmong(first, a, b);
    assert LessAmong(first, a, b) ==
      if a.kind == "Namespace" then b.kind == "Namespace" ==> LexLess(a.name, b.name)
      else b.kind != "Namespace" && LessAmong(first[1..], a, b);
  }

  /** In full: Namespaces by name, then CustomResourceDefinitions by name, then
      the rest by namespace and name. */
  lemma LessInFull(a: Object, b: Object)
    ensures Less(a, b) <==>
              if a.kind == "Namespace" then b.kind != "Namespace" || LexLess(a.name, b.name)
              else if b.kind == "Namespace" then false
              else if a.kind == "CustomResourceDefinition" then
                b.kind != "CustomResourceDefinition" || LexLess(a.name, b.name)
              else if b.kind == "CustomResourceDefinition" then false
              else LexLess(a.ns + "/" + a.name, b.ns + "/" + b.name)
  {
    LessByRankAndKey(a, b);
  }

  lemma LessOrders()
    ensures StrictWeakOrder(Less)
  {
    forall x: Object ensures !Less(x, x) {
      LessByRankAndKey(x, x);
      LexTotal(SortKey(x), SortKey(x));
    }
    forall x: Object, y: Object, z: Object | Less(x, y) && Less(y, z) ensures Less(x, z) {
      LessThree(x, y, z);
    }
    forall x: Object, y: Object, z: Object | Less(x, z) ensures Less(x, y) || Less(y, z) {
      LessThree(x, y, z);
    }
  }

  lemma LessThree(x: Object, y: Object, z: Object)
    ensures Less(x, y) && Less(y, z) ==> Less(x, z)
    ensures Less(x, z) ==> Less(x, y) || Less(y, z)
  {
    LessByRankAndKey(x, y);
    LessByRankAndKey(y, z);
    LessByRankAndKey(x, z);
    var a, b, c := SortKey(x), SortKey(y), SortKey(z);
    LexTotal(a, b);
    LexTotal(b, c);
    if LexLess(a, b) && LexLess(b, c) {
      LexTransitive(a, b, c);
    }
    if LexLess(b, a) && LexLess(a, c) {
      LexTransitive(b, a, c);
    }
  }

  /** Two objects tie exactly when rank and key agree. */
  lemma TieIsSameRankAndKey(a: Object, b: Object)
    ensures !Less(a, b) && !Less(b, a) <==> Rank(a) == Rank(b) && SortKey(a) == SortKey(b)
  {
    LessByRankAndKey(a, b);
    LessByRankAndKey(b, a);
    LexTotal(SortKey(a), SortKey(b));
    LexTotal(SortKey(a), SortKey(a));
  }

  /** A sorted list has all Namespaces, then all CustomResourceDefinitions,
      then the rest. */
  lemma NamespacesAndCRDsFirst(s: seq<Object>, i: nat, j: nat)
    requires SortedBy(s, Less) && i < j < |s|
    ensures Rank(s[i]) <= Rank(s[j])
  {
    LessByRankAndKey(s[j], s[i]);
  }

  /** Strings with a common prefix are an interval of the order. */
  lemma {:induction false} PrefixInterval(p: string, a: string, b: string, c: string)
    requires HasPrefix(a, p) && HasPrefix(c, p) && !LexLess(b, a) && !LexLess(c, b)
    ensures HasPrefix(b, p)
  {
    if p != [] {
      assert a[0] == p[0] == c[0] && b != [] && b[0] == p[0];
      assert a[1..][..|p| - 1] == p[1..] && c[1..][..|p| - 1] == p[1..] by {
        assert a[..|p|][1..] == p[1..] && c[..|p|][1..] == p[1..];
      }
      PrefixInterval(p[1..], a[1..], b[1..], c[1..]);
      assert b[..|p|] == [b[0]] + b[1..][..|p| - 1];
    }
  }

  /** Past the Namespaces and CRDs each namespace is one contiguous block. */
  lemma NamespaceBlocks(s: seq<Object>, i: nat, m: nat, j: nat)
    requires SortedBy(s, Less) && i < m < j < |s|
    requires Rank(s[i]) == 2 && s[i].ns == s[j].ns
    requires '/' !in s[i].ns && '/' !in s[m].ns
    ensures s[m].ns == s[i].ns
  {
    hide Less, LexLess;
    NamespacesAndCRDsFirst(s, i, m);
    NamespacesAndCRDsFirst(s, i, j);
    LessByRankAndKey(s[m], s[i]);
    LessByRankAndKey(s[j], s[m]);
    var p := s[i].ns + "/";
    var k := SortKey(s[m]);
    assert SortKey(s[i])[..|p|] == p && SortKey(s[j])[..|p|] == p;
    PrefixInterval(p, SortKey(s[i]), k, SortKey(s[j]));
    assert k[..|p|] == p && k == s[m].ns + ['/'] + s[m].name;
    IndexOfFirst(s[m].ns, '/', s[m].name);
    assert p == s[i].ns + ['/'] + "" && k == s[i].ns + ['/'] + k[|p|..];
    IndexOfFirst(s[i].ns, '/', k[|p|..]);
    assert |s[m].ns| == |s[i].ns|;
    assert k[..|s[m].ns|] == s[m].ns && k[..|s[i].ns|] == s[i].ns;
  }

  /** The lazily sorted buffer. */
  class BuildOutput {
    var objects: seq<Object>
    var sorted: bool

    constructor ()
      ensures objects == [] && !sorted
    {
      objects, sorted := [], false;
    }

    /** Leaves `sorted` alone. */
    method Append(obj: Object)
      modifies this`objects
      ensures objects == old(objects) + [obj]
    {
      objects := objects + [obj];
    }

    /** Sorts once; the result is in order exactly when it was sorted now, or
        nothing out of order was appended since. */
    method SortedObjects() returns (r: seq<Object>)
      modifies this
      ensures r == objects && sorted && multiset(r) == multiset(old(objects))
      ensures SortedBy(r, Less) <==> !old(sorted) || SortedBy(old(objects), Less)
      ensures old(sorted) ==> r == old(objects)
    {
      if sorted {
        return objects;
      }
      LessOrders();
      objects := Sort(objects, Less);
      sorted := true;
      return objects;
    }
  }

  // ---------------------------------------------------------------- walking

  predicate IsObject(j: Json) {
    && j.Obj? && "kind" in j.fields && "apiVersion" in j.fields
    && j.fields["kind"] != Null && j.fields["apiVersion"] != Null
  }

  /** Everything above the objects is a map, a list or null. */
  ghost predicate Walkable(j: Json) {
    match j
    case Null => true
    case Obj(f) => IsObject(j) || forall k :: k in f ==> Walkable(f[k])
    case Arr(s) => forall i :: 0 <= i < |s| ==> Walkable(s[i])
    case _ => false
  }

  /** The topmost objects of a document, in no order. */
  ghost function Topmost(j: Json): multiset<Json>
    decreases j, 1
  {
    match j
    case Obj(f) => if IsObject(j) then multiset{j} else TopmostOfMap(j, f)
    case Arr(s) => TopmostOfList(j, |s|)
    case _ => multiset{}
  }

  predicate PartOf(whole: Json, f: Fields) {
    whole.Obj? && forall k :: k in f ==> k in whole.fields && f[k] == whole.fields[k]
  }

  /** `whole` is the document `f` is part of; it only bounds the recursion. */
  ghost function TopmostOfMap(whole: Json, f: Fields): multiset<Json>
    requires PartOf(whole, f)
    decreases whole, 0, |f|
  {
    if f == map[] then multiset{}
    else
      var k :| k in f;
      Topmost(f[k]) + TopmostOfMap(whole, f - {k})
  }

  /** Of the first `n` elements. */
  ghost function TopmostOfList(whole: Json, n: nat): multiset<Json>
    requires whole.Arr? && n <= |whole.items|
    decreases whole, 0, n
  {
    if n == 0 then multiset{}
    else TopmostOfList(whole, n - 1) + Topmost(whole.items[n - 1])
  }

  /** The key taken first does not matter. */
  lemma {:induction false} TopmostAnyOrder(whole: Json, f: Fields, k: string)
    requires PartOf(whole, f)
    requires k in f
    ensures TopmostOfMap(whole, f) == Topmost(f[k]) + TopmostOfMap(whole, f - {k})
    decreases |f|
  {
    var k0: string :| k0 in f && TopmostOfMap(whole, f) == Topmost(f[k0]) + TopmostOfMap(whole, f - {k0});
    if k0 != k {
      assert f - {k0} - {k} == f - {k} - {k0};
      TopmostAnyOrder(whole, f - {k0}, k);
      TopmostAnyOrder(whole, f - {k}, k0);
    }
  }

  /** `r` is a possible walk of `j`: keys of maps in any order, elements of
      lists in theirs. */
  ghost predicate Walks(j: Json, r: seq<Json>)
    decreases j, 1
  {
    match j
    case Null => r == []
    case Obj(f) => if IsObject(j) then r == [j] else WalksMap(j, f, r)
    case Arr(s) => WalksList(j, |s|, r)
    case _ => false
  }

  ghost predicate WalksMap(whole: Json, f: Fields, r: seq<Json>)
    requires PartOf(whole, f)
    decreases whole, 0, |f|
  {
    if f == map[] then r == []
    else exists k, a, b :: k in f && r == a + b && Walks(f[k], a) && WalksMap(whole, f - {k}, b)
  }

  /** Of the first `n` elements. */
  ghost predicate WalksList(whole: Json, n: nat, r: seq<Json>)
    requires whole.Arr? && n <= |whole.items|
    decreases whole, 0, n
  {
    if n == 0 then r == []
    else exists a, b :: r == a + b && WalksList(whole, n - 1, a) && Walks(whole.items[n - 1], b)
  }

  /** Visiting `k` first. */
  lemma KeyFirst(whole: Json, f: Fields, k: string, a: seq<Json>, b: seq<Json>)
    requires PartOf(whole, f)
    requires k in f && Walks(f[k], a) && WalksMap(whole, f - {k}, b)
    ensures WalksMap(whole, f, a + b)
  {
  }

  lemma ElementLast(whole: Json, n: nat, a: seq<Json>, b: seq<Json>)
    requires whole.Arr? && 0 < n <= |whole.items|
    requires WalksList(whole, n - 1, a) && Walks(whole.items[n - 1], b)
    ensures WalksList(whole, n, a + b)
  {
  }

  /** Every walk finds exactly the topmost objects. */
  lemma {:induction false} WalkFindsTopmost(j: Json, r: seq<Json>)
    requires Walks(j, r)
    ensures multiset(r) == Topmost(j)
    decreases j, 1
  {
    match j {
      case Obj(f) => if !IsObject(j) { WalkFindsTopmostOfMap(j, f, r); }
      case Arr(s) => WalkFindsTopmostOfList(j, |s|, r);
      case _ =>
    }
  }

  lemma {:induction false} WalkFindsTopmostOfMap(whole: Json, f: Fields, r: seq<Json>)
    requires PartOf(whole, f)
    requires WalksMap(whole, f, r)
    ensures multiset(r) == TopmostOfMap(whole, f)
    decreases whole, 0, |f|
  {
    if f != map[] {
      var k, a, b :| k in f && r == a + b && Walks(f[k], a) && WalksMap(whole, f - {k}, b);
      WalkFindsTopmost(f[k], a);
      WalkFindsTopmostOfMap(whole, f - {k}, b);
      TopmostAnyOrder(whole, f, k);
    }
  }

  lemma {:induction false} WalkFindsTopmostOfList(whole: Json, n: nat, r: seq<Json>)
    requires whole.Arr? && n <= |whole.items| && WalksList(whole, n, r)
    ensures multiset(r) == TopmostOfList(whole, n)
    decreases whole, 0, n
  {
    if n > 0 {
      var a, b :| r == a + b && WalksList(whole, n - 1, a) && Walks(whole.items[n - 1], b);
      WalkFindsTopmostOfList(whole, n - 1, a);
      WalkFindsTopmost(whole.items[n - 1], b);
    }
  }

  /** Fails exactly on documents that are not walkable. */
  method JsonWalk(j: Json) returns (r: Option<seq<Json>>)
    ensures r.Some? <==> Walkable(j)
    ensures r.Some? ==> Walks(j, r.value)
    decreases j, 1
  {
    match j {
      case Null => return Some([]);
      case Obj(f) =>
        if IsObject(j) {
          return Some([j]);
        }
        r := WalkMap(j, f);
      case Arr(s) =>
        r := WalkList(j, s);
      case _ => return None;
    }
  }

  /** Visits map keys in any order. */
  method WalkMap(whole: Json, f: Fields) returns (r: Option<seq<Json>>)
    requires whole == Obj(f)
    ensures r.Some? <==> forall k :: k in f ==> Walkable(f[k])
    ensures r.Some? ==> WalksMap(whole, f, r.value)
    decreases whole, 0
  {
    hide IsObject, WalksMap, Walks;
    var ret := [];
    var rest := f;
    assert forall s: seq<Json> :: [] + s == s;
    while rest != map[]
      invariant forall k :: k in rest ==> k in f && rest[k] == f[k]
      invariant forall k :: k in f && k !in rest ==> Walkable(f[k])
      invariant forall s :: WalksMap(whole, rest, s) ==> WalksMap(whole, f, ret + s)
      decreases |rest|
    {
      var k :| k in rest;
      var children := JsonWalk(f[k]);
      if children.None? {
        return None;
      }
      forall s | WalksMap(whole, rest - {k}, s) ensures WalksMap(whole, f, ret + children.value + s) {
        KeyFirst(whole, rest, k, children.value, s);
        assert ret + (children.value + s) == ret + children.value + s;
      }
      ret := ret + children.value;
      rest := rest - {k};
    }
    NothingWalked(whole);
    assert ret + [] == ret;
    return Some(ret);
  }

  lemma NothingWalked(whole: Json)
    requires whole.Obj?
    ensures WalksMap(whole, map[], [])
  {
  }

  method WalkList(whole: Json, s: seq<Json>) returns (r: Option<seq<Json>>)
    requires whole == Arr(s)
    ensures r.Some? <==> forall i :: 0 <= i < |s| ==> Walkable(s[i])
    ensures r.Some? ==> WalksList(whole, |s|, r.value)
    decreases whole, 0
  {
    hide IsObject;
    var ret := [];
    for i := 0 to |s|
      invariant forall m :: 0 <= m < i ==> Walkable(s[m])
      invariant WalksList(whole, i, ret)
    {
      var children := JsonWalk(s[i]);
      if children.None? {
        return None;
      }
      ElementLast(whole, i + 1, ret, children.value);
      ret := ret + children.value;
    }
    return Some(ret);
  }

  // --------------------------------------------------------------- building

  datatype Scope = Namespaced | ClusterWide | Unmapped

  /** `checkNamespace`: the namespace of a namespaced object is defaulted; a
      kind the API does not know is an error. No mapper, no check. */
  function CheckNamespace(mapper: Option<GVK -> Scope>, ns: string, o: Object): Option<Object> {
    if mapper.None? then Some(o)
    else
      match mapper.value(Gvk(o))
      case Unmapped => None
      case ClusterWide => Some(o)
      case Namespaced => Some(if o.ns == "" then o.(ns := ns) else o)
  }

  /** Defaulting changes nothing but an empty namespace, and that for a
      namespaced kind only; doing it again changes nothing. */
  lemma DefaultingIsStable(mapper: Option<GVK -> Scope>, ns: string, o: Object)
    requires CheckNamespace(mapper, ns, o).Some?
    ensures var r := CheckNamespace(mapper, ns, o).value;
            && r == o.(ns := r.ns) && CheckNamespace(mapper, ns, r) == Some(r)
            && (r.ns != o.ns <==> o.ns == "" && ns != "" && mapper.Some? && mapper.value(Gvk(o)).Namespaced?)
            && (r.ns != o.ns ==> r.ns == ns)
  {
    var r := CheckNamespace(mapper, ns, o).value;
    assert Gvk(r) == Gvk(o);
  }

  predicate IsList(f: Fields) {
    "items" in f && f["items"].Arr?
  }

  /** The objects one walked map contributes. The items of a list are appended
      through the address of the loop variable, so each of them ends up as the
      last one. */
  function Contributed(mapper: Option<GVK -> Scope>, ns: string): Json -> Option<seq<Object>> {
    (j: Json) =>
      if !j.Obj? then None
      else if !IsList(j.fields) then
        var o := CheckNamespace(mapper, ns, Wrap(j.fields));
        if o.None? then None else Some([o.value])
      else
        var items := j.fields["items"].items;
        if exists i :: 0 <= i < |items| && Item(mapper, ns, items[i]).None? then None
        else if items == [] then Some([])
        else Some(seq(|items|, _ => Item(mapper, ns, items[|items| - 1]).value))
  }

  function Item(mapper: Option<GVK -> Scope>, ns: string, item: Json): Option<Object> {
    if item.Obj? then CheckNamespace(mapper, ns, Wrap(item.fields)) else None
  }

  function OrNothing<T>(o: Option<seq<T>>): seq<T> {
    if o.Some? then o.value else []
  }

  function Flatten<T>(s: seq<Option<seq<T>>>): seq<T> {
    if s == [] then [] else Flatten(s[..|s| - 1]) + OrNothing(s[|s| - 1])
  }

  /** `objects` is a possible output for the evaluated document `root`. */
  ghost predicate BuiltFrom(root: Json, mapper: Option<GVK -> Scope>, ns: string, objects: seq<Object>) {
    exists walked: seq<Json> :: Walks(root, walked) && objects == Flatten(Map(Contributed(mapper, ns), walked))
  }

  ghost predicate Buildable(root: Json, mapper: Option<GVK -> Scope>, ns: string) {
    Walkable(root) && forall j :: j in Topmost(root) ==> Contributed(mapper, ns)(j).Some?
  }

  /** The API knows the kind of the document, if it is asked. */
  predicate Known(mapper: Option<GVK -> Scope>, j: Json) {
    j.Obj? && (mapper.Some? ==> !mapper.value(Gvk(Wrap(j.fields))).Unmapped?)
  }

  /** `o` is the object that the document shows, but for an empty namespace where
      the kind wants one. */
  predicate Defaulted(mapper: Option<GVK -> Scope>, ns: string, j: Json, o: Object) {
    j.Obj? &&
    var w := Wrap(j.fields);
    if mapper.Some? && mapper.value(Gvk(w)).Namespaced? && w.ns == "" then o == w.(ns := ns) else o == w
  }

  /** The document stands for itself. */
  predicate Single(j: Json) {
    j.Obj? && ("items" in j.fields ==> !j.fields["items"].Arr?)
  }

  /** It stands for its items. */
  predicate Multiple(j: Json) {
    j.Obj? && "items" in j.fields && j.fields["items"].Arr?
  }

  /** The API knows the kinds of all that the document stands for. */
  predicate AllKnown(mapper: Option<GVK -> Scope>, j: Json) {
    && (Single(j) ==> Known(mapper, j))
    && (Multiple(j) ==>
          var items := j.fields["items"].items; forall i :: 0 <= i < |items| ==> Known(mapper, items[i]))
  }

  /** `o` is what a single document, or the last item of another one, becomes. */
  predicate Makes(mapper: Option<GVK -> Scope>, ns: string, j: Json, o: Object) {
    && (Single(j) ==> Defaulted(mapper, ns, j, o))
    && (Multiple(j) ==>
          var items := j.fields["items"].items; items != [] && Defaulted(mapper, ns, items[|items| - 1], o))
  }

  /** One walked document contributes exactly when all kinds are known, and then
      one object, or one for each item. */
  lemma ContributedExactly(mapper: Option<GVK -> Scope>, ns: string, j: Json)
    requires j.Obj?
    ensures var r := Contributed(mapper, ns)(j);
            && (r.Some? <==> AllKnown(mapper, j))
            && (r.Some? ==>
                  && (forall o :: o in r.value <==> Makes(mapper, ns, j, o))
                  && |r.value| == if Single(j) then 1 else |j.fields["items"].items|)
  {
    hide Wrap, Gvk;
    if Multiple(j) {
      var items, r := j.fields["items"].items, Contributed(mapper, ns)(j);
      assert forall i :: 0 <= i < |items| ==> (Item(mapper, ns, items[i]).Some? <==> Known(mapper, items[i]));
      if r.Some? && items != [] {
        assert r.value[0] in r.value;
      }
    } else {
      var o := CheckNamespace(mapper, ns, Wrap(j.fields));
      assert o.Some? ==> forall x :: Makes(mapper, ns, j, x) <==> x == o.value;
    }
  }

  lemma {:induction false} FlattenHas<T>(s: seq<Option<seq<T>>>, x: T)
    ensures x in Flatten(s) <==> exists i :: 0 <= i < |s| && x in OrNothing(s[i])
    decreases s
  {
    if s != [] {
      var t := s[..|s| - 1];
      FlattenHas(t, x);
      if i :| 0 <= i < |t| && x in OrNothing(t[i]) {
        assert x in OrNothing(s[i]);
      }
      if i :| 0 <= i < |s| && x in OrNothing(s[i]) {
        assert i < |t| ==> x in OrNothing(t[i]);
      }
    }
  }

  lemma WalkedAreTopmost(root: Json, walked: seq<Json>)
    requires Walks(root, walked)
    ensures forall j :: j in walked <==> j in Topmost(root)
  {
    WalkFindsTopmost(root, walked);
    assert forall j :: j in walked <==> j in multiset(walked);
  }

  lemma {:induction false} TopmostAreMaps(j: Json, x: Json)
    requires x in Topmost(j)
    ensures x.Obj?
    decreases j, 1
  {
    if j.Obj? && !IsObject(j) {
      TopmostOfMapAreMaps(j, j.fields, x);
    } else if j.Arr? {
      TopmostOfListAreMaps(j, |j.items|, x);
    }
  }

  lemma {:induction false} TopmostOfMapAreMaps(whole: Json, f: Fields, x: Json)
    requires PartOf(whole, f) && x in TopmostOfMap(whole, f)
    ensures x.Obj?
    decreases whole, 0, |f|
  {
    var k :| k in f && TopmostOfMap(whole, f) == Topmost(f[k]) + TopmostOfMap(whole, f - {k});
    if x in Topmost(f[k]) {
      TopmostAreMaps(f[k], x);
    } else {
      TopmostOfMapAreMaps(whole, f - {k}, x);
    }
  }

  lemma {:induction false} TopmostOfListAreMaps(whole: Json, n: nat, x: Json)
    requires whole.Arr? && n <= |whole.items| && x in TopmostOfList(whole, n)
    ensures x.Obj?
    decreases whole, 0, n
  {
    if x in TopmostOfList(whole, n - 1) {
      TopmostOfListAreMaps(whole, n - 1, x);
    } else {
      TopmostAreMaps(whole.items[n - 1], x);
    }
  }

  /** A build succeeds exactly when the document can be walked and the API knows
      the kinds of all topmost objects, and of the items of those with items. */
  lemma BuildableInFull(root: Json, mapper: Option<GVK -> Scope>, ns: string)
    ensures Buildable(root, mapper, ns) <==> Walkable(root) && forall j :: j in Topmost(root) ==> AllKnown(mapper, j)
  {
    hide AllKnown, Contributed, Walkable, Topmost;
    forall j | j in Topmost(root) ensures Contributed(mapper, ns)(j).Some? <==> AllKnown(mapper, j) {
      TopmostAreMaps(root, j);
      ContributedExactly(mapper, ns, j);
    }
  }

  /** Its objects are those of the topmost documents, with empty namespaces
      filled in where the kind wants one, and nothing else changed. */
  lemma BuiltInFull(root: Json, mapper: Option<GVK -> Scope>, ns: string, objects: seq<Object>)
    requires BuiltFrom(root, mapper, ns, objects) && Buildable(root, mapper, ns)
    ensures forall o :: o in objects <==> exists j :: j in Topmost(root) && Makes(mapper, ns, j, o)
  {
    hide Makes, AllKnown, Contributed, Walkable, Topmost, Flatten;
    var f := Contributed(mapper, ns);
    var walked: seq<Json> :| Walks(root, walked) && objects == Flatten(Map(f, walked));
    WalkedAreTopmost(root, walked);
    forall j | j in Topmost(root) ensures j.Obj? && forall o :: o in OrNothing(f(j)) <==> Makes(mapper, ns, j, o) {
      TopmostAreMaps(root, j);
      ContributedExactly(mapper, ns, j);
    }
    forall o ensures o in objects <==> exists j :: j in Topmost(root) && Makes(mapper, ns, j, o) {
      FlattenHas(Map(f, walked), o);
      if i :| 0 <= i < |walked| && o in OrNothing(Map(f, walked)[i]) {
        assert walked[i] in Topmost(root) && Makes(mapper, ns, walked[i], o);
      }
      if j :| j in Topmost(root) && Makes(mapper, ns, j, o) {
        var i :| 0 <= i < |walked| && walked[i] == j;
        assert o in OrNothing(Map(f, walked)[i]);
      }
    }
  }

  lemma {:induction false} FlattenSingles<T>(s: seq<Option<seq<T>>>)
    requires forall i :: 0 <= i < |s| ==> |OrNothing(s[i])| == 1
    ensures |Flatten(s)| == |s| && forall i :: 0 <= i < |s| ==> Flatten(s)[i] == OrNothing(s[i])[0]
    decreases s
  {
    if s != [] {
      var t := s[..|s| - 1];
      FlattenSingles(t);
      assert forall i :: 0 <= i < |t| ==> Flatten(s)[i] == Flatten(t)[i];
    }
  }

  /** Where nothing has items, its objects are one for each walked document, in
      the order of the walk. */
  lemma BuiltInOrder(root: Json, mapper: Option<GVK -> Scope>, ns: string, objects: seq<Object>)
    returns (walked: seq<Json>)
    requires BuiltFrom(root, mapper, ns, objects) && Buildable(root, mapper, ns)
    requires forall j :: j in Topmost(root) ==> Single(j)
    ensures Walks(root, walked) && |walked| == |objects|
    ensures forall i :: 0 <= i < |walked| ==> Defaulted(mapper, ns, walked[i], objects[i])
  {
    hide Defaulted, AllKnown, Contributed, Walkable, Topmost, Flatten;
    var f := Contributed(mapper, ns);
    walked :| Walks(root, walked) && objects == Flatten(Map(f, walked));
    WalkedAreTopmost(root, walked);
    var s := Map(f, walked);
    forall i | 0 <= i < |s|
      ensures |OrNothing(s[i])| == 1 && Defaulted(mapper, ns, walked[i], OrNothing(s[i])[0])
    {
      assert walked[i] in walked;
      ContributedExactly(mapper, ns, walked[i]);
      assert OrNothing(s[i])[0] in s[i].value;
    }
    FlattenSingles(s);
  }

  method AppendAll(output: BuildOutput, objs: seq<Object>)
    modifies output`objects
    ensures output.objects == old(output.objects) + objs
  {
    for n := 0 to |objs|
      invariant output.objects == old(output.objects) + objs[..n]
    {
      output.Append(objs[n]);
    }
  }

  lemma FlattenOneMore<T>(f: Json -> Option<seq<T>>, walked: seq<Json>, i: nat)
    requires i < |walked|
    ensures Flatten(Map(f, walked[..i + 1])) == Flatten(Map(f, walked[..i])) + OrNothing(f(walked[i]))
  {
    assert Map(f, walked[..i + 1])[..i] == Map(f, walked[..i]);
  }

  method Build(root: Json, mapper: Option<GVK -> Scope>, ns: string) returns (ok: bool, output: BuildOutput)
    ensures fresh(output) && !output.sorted
    ensures ok <==> Buildable(root, mapper, ns)
    ensures ok <==> Walkable(root) && forall j :: j in Topmost(root) ==> AllKnown(mapper, j)
    ensures ok ==> BuiltFrom(root, mapper, ns, output.objects)
    ensures ok ==>
              forall o :: o in output.objects <==> exists j :: j in Topmost(root) && Makes(mapper, ns, j, o)
  {
    hide Contributed, AllKnown, Makes, Walkable, Flatten;
    BuildableInFull(root, mapper, ns);
    output := new BuildOutput();
    var objs := JsonWalk(root);
    if objs.None? {
      return false, output;
    }
    ok := AppendContributions(output, objs.value, Contributed(mapper, ns));
    WalkedAreTopmost(root, objs.value);
    if ok {
      BuiltInFull(root, mapper, ns, output.objects);
    }
  }

  /** The loop of `Build`; the first object with an error ends it. */
  method AppendContributions(output: BuildOutput, walked: seq<Json>, f: Json -> Option<seq<Object>>) returns (ok: bool)
    requires output.objects == []
    modifies output`objects
    ensures ok <==> forall j :: j in walked ==> f(j).Some?
    ensures ok ==> output.objects == Flatten(Map(f, walked))
  {
    for i := 0 to |walked|
      invariant forall m :: 0 <= m < i ==> f(walked[m]).Some?
      invariant output.objects == Flatten(Map(f, walked[..i]))
    {
      var add := f(walked[i]);
      if add.None? {
        return false;
      }
      AppendAll(output, add.value);
      FlattenOneMore(f, walked, i);
    }
    assert walked[..|walked|] == walked;
    return true;
  }

  // -------------------------------------------------------------- canonical

  lemma {:induction false} FlattenConcat<T>(s: seq<Option<seq<T>>>, t: seq<Option<seq<T>>>)
    ensures Flatten(s + t) == Flatten(s) + Flatten(t)
    decreases t
  {
    if t == [] {
      assert s + t == s;
    } else {
      var t' := t[..|t| - 1];
      assert (s + t)[..|s + t| - 1] == s + t';
      FlattenConcat(s, t');
    }
  }

  lemma FlattenSplit<T>(s: seq<Option<seq<T>>>, i: nat)
    requires i < |s|
    ensures multiset(Flatten(s)) == multiset(Flatten(s[..i] + s[i + 1..])) + multiset(OrNothing(s[i]))
  {
    hide Flatten;
    var a, c := s[..i], s[i + 1..];
    var t := [s[i]] + c;
    assert s == a + t;
    FlattenConcat(a, t);
    FlattenConcat([s[i]], c);
    FlattenConcat(a, c);
    FlattenOne(s[i]);
    MiddleOut(Flatten(a), OrNothing(s[i]), Flatten(c));
  }

  lemma FlattenOne<T>(x: Option<seq<T>>)
    ensures Flatten([x]) == OrNothing(x)
  {
    assert [x][..0] == [];
  }

  lemma MiddleOut<T>(a: seq<T>, b: seq<T>, c: seq<T>)
    ensures multiset(a + (b + c)) == multiset(a + c) + multiset(b)
  {
  }

  lemma {:induction false} FlattenPermutes<T>(s: seq<Option<seq<T>>>, t: seq<Option<seq<T>>>)
    requires multiset(s) == multiset(t)
    ensures multiset(Flatten(s)) == multiset(Flatten(t))
  {
    if s == [] {
      assert t == [] by { assert |multiset(t)| == |t|; }
    } else {
      var j := MatchFirst(s, t);
      var s', t' := s[..0] + s[1..], t[..j] + t[j + 1..];
      FlattenPermutes(s', t');
      FlattenSplit(s, 0);
      FlattenSplit(t, j);
    }
  }

  /** Two builds of one document agree up to order, whatever order map keys
      were visited in. */
  lemma BuildsArePermutations(root: Json, mapper: Option<GVK -> Scope>, ns: string, a: seq<Object>, b: seq<Object>)
    requires BuiltFrom(root, mapper, ns, a) && BuiltFrom(root, mapper, ns, b)
    ensures multiset(a) == multiset(b)
  {
    var f := Contributed(mapper, ns);
    var w: seq<Json> :| Walks(root, w) && a == Flatten(Map(f, w));
    var v: seq<Json> :| Walks(root, v) && b == Flatten(Map(f, v));
    WalkFindsTopmost(root, w);
    WalkFindsTopmost(root, v);
    MapPermutes(f, w, v);
    FlattenPermutes(Map(f, w), Map(f, v));
  }

  /** The manifest, and so its checksum, depends only on the document when no
      two different objects share rank and key, by any sort. */
  lemma SortedManifestCanonical(root: Json, mapper: Option<GVK -> Scope>, ns: string,
                                a: seq<Object>, ra: seq<Object>, b: seq<Object>, rb: seq<Object>)
    requires BuiltFrom(root, mapper, ns, a) && SortOf(a, Less, ra)
    requires BuiltFrom(root, mapper, ns, b) && SortOf(b, Less, rb)
    requires TieFree(a, Less)
    ensures ra == rb
  {
    hide BuiltFrom, Less;
    BuildsArePermutations(root, mapper, ns, a, b);
    assert forall x :: x in ra ==> x in multiset(a);
    SortUnique(ra, rb, Less);
  }

  /** Flattening a list keeps its items exactly when they are all the same. */
  lemma ListKeepsItemsOnlyIfEqual(mapper: Option<GVK -> Scope>, ns: string, f: Fields, items: seq<Object>)
    requires IsList(f) && |items| == |f["items"].items|
    requires forall i :: 0 <= i < |items| ==> Item(mapper, ns, f["items"].items[i]) == Some(items[i])
    ensures Contributed(mapper, ns)(Obj(f)) == Some(items) <==>
            forall i :: 0 <= i < |items| ==> items[i] == items[|items| - 1]
  {
    var r := Contributed(mapper, ns)(Obj(f));
    assert r.Some? && |r.value| == |items|;
    assert r.value == items <==> forall i :: 0 <= i < |items| ==> r.value[i] == items[i];
  }
}
