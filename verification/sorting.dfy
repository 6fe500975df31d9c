/** String order and what `sort.Sort` promises: some sorted permutation. */
module Sorting {

  /** Go's `<` on strings. */
  predicate LexLess(a: string, b: string) {
    b != [] && (a == [] || a[0] < b[0] || (a[0] == b[0] && LexLess(a[1..], b[1..])))
  }

  lemma {:induction false} LexTotal(a: string, b: string)
    ensures LexLess(a, b) || LexLess(b, a) || a == b
    ensures !(LexLess(a, b) && LexLess(b, a))
    ensures !LexLess(a, a)
  {
    if a != [] && b != [] {
      LexTotal(a[1..], b[1..]);
      assert a == [a[0]] + a[1..] && b == [b[0]] + b[1..];
    }
    if a != [] {
      LexTotal(a[1..], a[1..]);
    }
  }

  lemma {:induction false} LexTransitive(a: string, b: string, c: string)
    requires LexLess(a, b) && LexLess(b, c)
    ensures LexLess(a, c)
  {
    if a != [] && a[0] == b[0] == c[0] {
      LexTransitive(a[1..], b[1..], c[1..]);
    }
  }

  /** One string is a beginning of the other, or has the smaller character where
      they first differ. */
  lemma {:induction false} LexFirstDifference(a: string, b: string)
    ensures LexLess(a, b) <==>
              exists i :: 0 <= i <= |a| && i < |b| && a[..i] == b[..i] && (i == |a| || a[i] < b[i])
  {
    if a != [] && b != [] && a[0] == b[0] {
      LexFirstDifference(a[1..], b[1..]);
      forall i | 0 < i <= |a| && i < |b| ensures a[..i] == b[..i] <==> a[1..][..i - 1] == b[1..][..i - 1] {
        assert a[..i] == [a[0]] + a[1..][..i - 1] && b[..i] == [b[0]] + b[1..][..i - 1];
      }
      var s, t := a[1..], b[1..];
      if i :| 0 <= i <= |s| && i < |t| && s[..i] == t[..i] && (i == |s| || s[i] < t[i]) {
        assert a[..i + 1] == b[..i + 1];
      }
    } else if b != [] {
      assert a[..0] == b[..0];
    }
  }

  /** `sort.Interface`'s demand on `Less`. */
  ghost predicate StrictWeakOrder<T(!new)>(less: (T, T) -> bool) {
    && (forall x :: !less(x, x))
    && (forall x, y, z :: less(x, y) && less(y, z) ==> less(x, z))
    && (forall x, y, z :: less(x, z) ==> less(x, y) || less(y, z))
  }

  ghost predicate SortedBy<T>(s: seq<T>, less: (T, T) -> bool) {
    forall i, j :: 0 <= i < j < |s| ==> !less(s[j], s[i])
  }

  /** `r` is a possible outcome of sorting `s`. */
  ghost predicate SortOf<T>(s: seq<T>, less: (T, T) -> bool, r: seq<T>) {
    multiset(r) == multiset(s) && SortedBy(r, less)
  }

  /** Only equal elements tie. */
  ghost predicate TieFree<T>(s: seq<T>, less: (T, T) -> bool) {
    forall x, y :: x in s && y in s && x != y ==> less(x, y) || less(y, x)
  }

  function Insert<T>(x: T, s: seq<T>, less: (T, T) -> bool): (r: seq<T>)
    ensures multiset(r) == multiset(s) + multiset{x}
  {
    if s == [] then [x]
    else
      assert s == [s[0]] + s[1..];
      if !less(s[0], x) then [x] + s else [s[0]] + Insert(x, s[1..], less)
  }

  lemma {:induction false} InsertSorted<T(!new)>(x: T, s: seq<T>, less: (T, T) -> bool)
    requires StrictWeakOrder(less) && SortedBy(s, less)
    ensures SortedBy(Insert(x, s, less), less)
  {
    if s != [] && less(s[0], x) {
      var t := Insert(x, s[1..], less);
      InsertSorted(x, s[1..], less);
      forall j | 0 <= j < |t| ensures !less(t[j], s[0]) {
        assert t[j] in multiset(t);
      }
    }
  }

  /** A sort that keeps tied elements in their order. */
  function StableSort<T>(s: seq<T>, less: (T, T) -> bool): (r: seq<T>)
    ensures multiset(r) == multiset(s)
  {
    if s == [] then []
    else
      assert s == [s[0]] + s[1..];
      Insert(s[0], StableSort(s[1..], less), less)
  }

  lemma {:induction false} StableSortSorts<T(!new)>(s: seq<T>, less: (T, T) -> bool)
    requires StrictWeakOrder(less)
    ensures SortOf(s, less, StableSort(s, less))
  {
    if s != [] {
      StableSortSorts(s[1..], less);
      InsertSorted(s[0], StableSort(s[1..], less), less);
    }
  }

  /** `sort.Sort`: callers learn nothing about the order of ties. */
  method Sort<T(!new)>(s: seq<T>, less: (T, T) -> bool) returns (r: seq<T>)
    requires StrictWeakOrder(less)
    ensures SortOf(s, less, r)
  {
    r := StableSort(s, less);
    StableSortSorts(s, less);
  }

  /** `sort.Sort` on a slice, in place. */
  method SortSlice<T(!new)>(a: array<T>, less: (T, T) -> bool)
    requires StrictWeakOrder(less)
    modifies a
    ensures SortOf(old(a[..]), less, a[..])
  {
    var r := Sort(a[..], less);
    assert |r| == |multiset(r)| == |multiset(a[..])| == a.Length;
    forall i | 0 <= i < a.Length {
      a[i] := r[i];
    }
    assert a[..] == r;
  }

  /** Without ties between different elements the outcome is unique. */
  lemma {:induction false} SortUnique<T>(r1: seq<T>, r2: seq<T>, less: (T, T) -> bool)
    requires multiset(r1) == multiset(r2)
    requires SortedBy(r1, less) && SortedBy(r2, less) && TieFree(r1, less)
    ensures r1 == r2
  {
    if r1 == [] {
      assert r2 == [] by { assert |multiset(r2)| == |r2|; }
    } else {
      SameHead(r1, r2, less);
      SameTails(r1, r2);
      SortUnique(r1[1..], r2[1..], less);
      assert r1 == [r1[0]] + r1[1..] && r2 == [r2[0]] + r2[1..];
    }
  }

  lemma SameHead<T>(r1: seq<T>, r2: seq<T>, less: (T, T) -> bool)
    requires multiset(r1) == multiset(r2) && r1 != []
    requires SortedBy(r1, less) && SortedBy(r2, less) && TieFree(r1, less)
    ensures r2 != [] && r1[0] == r2[0]
  {
    var j := MatchFirst(r1, r2);
    var i := MatchFirst(r2, r1);
    assert i == 0 || !less(r1[i], r1[0]);
    assert j == 0 || !less(r2[j], r2[0]);
  }

  lemma SameTails<T>(r1: seq<T>, r2: seq<T>)
    requires multiset(r1) == multiset(r2) && r1 != [] && r2 != [] && r1[0] == r2[0]
    ensures multiset(r1[1..]) == multiset(r2[1..])
  {
    WithoutOne(r1, 0);
    WithoutOne(r2, 0);
    CancelOne(multiset(r1[..0] + r1[1..]), multiset(r2[..0] + r2[1..]), r1[0]);
    assert r1[..0] + r1[1..] == r1[1..] && r2[..0] + r2[1..] == r2[1..];
  }

  // --------------------------------------------------------------- stable sorts

  predicate Tie<T>(x: T, y: T, less: (T, T) -> bool) {
    !less(x, y) && !less(y, x)
  }

  /** `y`, if it ties with `x`. */
  function IfTie<T>(y: T, x: T, less: (T, T) -> bool): seq<T> {
    if Tie(y, x, less) then [y] else []
  }

  /** The elements that tie with `x`, in their order. */
  function Tied<T>(s: seq<T>, x: T, less: (T, T) -> bool): seq<T> {
    if s == [] then [] else IfTie(s[0], x, less) + Tied(s[1..], x, less)
  }

  ghost predicate SameTies<T(!new)>(s: seq<T>, t: seq<T>, less: (T, T) -> bool) {
    forall x :: Tied(s, x, less) == Tied(t, x, less)
  }

  lemma TiedCons<T>(y: T, s: seq<T>, x: T, less: (T, T) -> bool)
    ensures Tied([y] + s, x, less) == IfTie(y, x, less) + Tied(s, x, less)
  {
    assert ([y] + s)[1..] == s;
  }

  lemma {:induction false} TiedConcat<T>(s: seq<T>, t: seq<T>, x: T, less: (T, T) -> bool)
    ensures Tied(s + t, x, less) == Tied(s, x, less) + Tied(t, x, less)
  {
    hide IfTie;
    if s == [] {
      assert s + t == t;
    } else {
      assert s + t == [s[0]] + (s[1..] + t);
      TiedCons(s[0], s[1..] + t, x, less);
      TiedConcat(s[1..], t, x, less);
    }
  }

  lemma {:induction false} TiedMembers<T(!new)>(s: seq<T>, x: T, less: (T, T) -> bool)
    ensures forall y :: y in Tied(s, x, less) <==> y in s && Tie(y, x, less)
  {
    if s != [] {
      TiedMembers(s[1..], x, less);
      assert s == [s[0]] + s[1..];
    }
  }

  lemma {:induction false} TiedInsert<T(!new)>(y: T, s: seq<T>, x: T, less: (T, T) -> bool)
    requires StrictWeakOrder(less)
    ensures Tied(Insert(y, s, less), x, less) == IfTie(y, x, less) + Tied(s, x, less)
  {
    hide Tied, IfTie, StrictWeakOrder;
    if s == [] || !less(s[0], y) {
      assert Insert(y, s, less) == [y] + s;
      TiedCons(y, s, x, less);
    } else {
      var t := Insert(y, s[1..], less);
      assert Insert(y, s, less) == [s[0]] + t && s == [s[0]] + s[1..];
      TiedCons(s[0], t, x, less);
      TiedCons(s[0], s[1..], x, less);
      TiedInsert(y, s[1..], x, less);
      OneOfTwoTies(s[0], y, x, less);
    }
  }

  lemma OneOfTwoTies<T(!new)>(y: T, z: T, x: T, less: (T, T) -> bool)
    requires StrictWeakOrder(less) && less(y, z)
    ensures IfTie(y, x, less) == [] || IfTie(z, x, less) == []
  {
  }

  lemma {:induction false} StableSortKeepsTied<T(!new)>(s: seq<T>, x: T, less: (T, T) -> bool)
    requires StrictWeakOrder(less)
    ensures Tied(StableSort(s, less), x, less) == Tied(s, x, less)
  {
    hide IfTie, StrictWeakOrder;
    if s != [] {
      StableSortKeepsTied(s[1..], x, less);
      TiedInsert(s[0], StableSort(s[1..], less), x, less);
    }
  }

  /** Sorted lists with the same ties have the same least element. */
  lemma SameLeast<T(!new)>(r1: seq<T>, r2: seq<T>, less: (T, T) -> bool)
    requires StrictWeakOrder(less) && SortedBy(r1, less) && SortedBy(r2, less)
    requires SameTies(r1, r2, less)
    requires r1 != [] && r2 != []
    ensures r1[0] == r2[0]
  {
    var x, y := r1[0], r2[0];
    TiedMembers(r1, y, less);
    TiedMembers(r2, y, less);
    TiedMembers(r1, x, less);
    TiedMembers(r2, x, less);
    assert y in Tied(r2, y, less) && y in r1;
    assert x in Tied(r1, x, less) && x in r2;
    assert Tie(x, y, less);
    assert Tied(r1, x, less)[0] == x && Tied(r2, x, less)[0] == y;
  }

  /** A sorted list is determined by its ties. */
  lemma {:induction false} DeterminedByTies<T(!new)>(r1: seq<T>, r2: seq<T>, less: (T, T) -> bool)
    requires StrictWeakOrder(less) && SortedBy(r1, less) && SortedBy(r2, less)
    requires SameTies(r1, r2, less)
    ensures r1 == r2
  {
    if r1 == [] || r2 == [] {
      assert r1 != [] ==> Tied(r1, r1[0], less) == Tied(r2, r1[0], less);
      assert r2 != [] ==> Tied(r1, r2[0], less) == Tied(r2, r2[0], less);
    } else {
      SameLeast(r1, r2, less);
      assert r1 == [r1[0]] + r1[1..] && r2 == [r2[0]] + r2[1..];
      forall z ensures Tied(r1[1..], z, less) == Tied(r2[1..], z, less) {
        assert Tied(r1, z, less) == Tied(r2, z, less);
        TiedCons(r1[0], r1[1..], z, less);
        TiedCons(r2[0], r2[1..], z, less);
        SameAfterFirst(IfTie(r1[0], z, less), Tied(r1[1..], z, less), Tied(r2[1..], z, less));
      }
      DeterminedByTies(r1[1..], r2[1..], less);
    }
  }

  lemma SameAfterFirst<T>(p: seq<T>, s: seq<T>, t: seq<T>)
    ensures p + s == p + t <==> s == t
  {
    if p + s == p + t {
      assert s == (p + s)[|p|..] && t == (p + t)[|p|..];
    }
  }

  /** Stable sorts of two lists agree exactly when the lists have the same ties
      in the same order. */
  lemma SameSortExactly<T(!new)>(s: seq<T>, t: seq<T>, less: (T, T) -> bool)
    requires StrictWeakOrder(less)
    ensures StableSort(s, less) == StableSort(t, less) <==> SameTies(s, t, less)
  {
    hide StrictWeakOrder;
    var p, q := StableSort(s, less), StableSort(t, less);
    StableSortSorts(s, less);
    StableSortSorts(t, less);
    forall x ensures Tied(p, x, less) == Tied(s, x, less) && Tied(q, x, less) == Tied(t, x, less) {
      StableSortKeepsTied(s, x, less);
      StableSortKeepsTied(t, x, less);
    }
    if SameTies(s, t, less) {
      DeterminedByTies(p, q, less);
    }
  }

  function Swapped<T>(s: seq<T>, i: nat, j: nat): seq<T>
    requires i < j < |s|
  {
    s[i := s[j]][j := s[i]]
  }

  /** Swapping two different elements that tie shows after a stable sort. */
  lemma SwapShows<T(!new)>(s: seq<T>, i: nat, j: nat, less: (T, T) -> bool)
    requires StrictWeakOrder(less) && i < j < |s| && s[i] != s[j] && Tie(s[i], s[j], less)
    ensures multiset(Swapped(s, i, j)) == multiset(s)
    ensures StableSort(Swapped(s, i, j), less) != StableSort(s, less)
  {
    hide Tied, StableSort;
    var t, x := Swapped(s, i, j), s[i];
    var p := Tied(s[..i], x, less);
    TiedAround(s, i, x, less);
    TiedAround(t, i, x, less);
    assert t[..i] == s[..i];
    assert Tied(s, x, less)[|p|] == s[i] && Tied(t, x, less)[|p|] == s[j];
    SameSortExactly(t, s, less);
  }

  lemma TiedAround<T>(s: seq<T>, i: nat, x: T, less: (T, T) -> bool)
    requires i < |s|
    ensures Tied(s, x, less) == Tied(s[..i], x, less) + (IfTie(s[i], x, less) + Tied(s[i + 1..], x, less))
  {
    hide IfTie;
    var a, b := s[..i], s[i..];
    assert a + b == s;
    assert b[1..] == s[i + 1..];
    TiedConcat(a, b, x, less);
  }

  lemma FindTie<T(!new)>(s: seq<T>, less: (T, T) -> bool) returns (i: nat, j: nat)
    requires !TieFree(s, less)
    ensures i < j < |s| && s[i] != s[j] && Tie(s[i], s[j], less)
  {
    var x, y :| x in s && y in s && x != y && !less(x, y) && !less(y, x);
    i :| 0 <= i < |s| && s[i] == x;
    j :| 0 <= j < |s| && s[j] == y;
    if j < i {
      i, j := j, i;
    }
  }

  /** The order of the input never matters exactly when only equal elements
      tie. */
  lemma OrderNeverMattersExactly<T(!new)>(s: seq<T>, less: (T, T) -> bool)
    requires StrictWeakOrder(less)
    ensures (forall t :: multiset(t) == multiset(s) ==> StableSort(t, less) == StableSort(s, less)) <==>
              TieFree(s, less)
  {
    if TieFree(s, less) {
      forall t | multiset(t) == multiset(s) ensures StableSort(t, less) == StableSort(s, less) {
        UniqueOutcome(s, StableSort(t, less), t, less);
      }
    } else {
      var i, j := FindTie(s, less);
      SwapShows(s, i, j, less);
    }
  }

  /** Without ties any sort of any permutation has the stable one's outcome. */
  lemma UniqueOutcome<T(!new)>(s: seq<T>, r: seq<T>, t: seq<T>, less: (T, T) -> bool)
    requires StrictWeakOrder(less) && TieFree(s, less) && multiset(t) == multiset(s)
    requires r == StableSort(t, less) || SortOf(t, less, r)
    ensures r == StableSort(s, less)
  {
    hide StrictWeakOrder, StableSort, TieFree, SortedBy;
    StableSortSorts(s, less);
    StableSortSorts(t, less);
    TieFreePermuted(s, r, less);
    SortUnique(r, StableSort(s, less), less);
  }

  lemma TieFreePermuted<T(!new)>(s: seq<T>, r: seq<T>, less: (T, T) -> bool)
    requires TieFree(s, less) && multiset(r) == multiset(s)
    ensures TieFree(r, less)
  {
    assert forall x :: x in r ==> x in multiset(r) && x in multiset(s);
  }

  /** Sorting by a key. */
  function ByKey<T>(key: T -> string): (T, T) -> bool {
    (x, y) => LexLess(key(x), key(y))
  }

  /** No two members of `domain` collide under `f`. */
  ghost predicate Injective<T(!new), K>(f: T -> K, domain: iset<T>) {
    forall x, y :: x in domain && y in domain && f(x) == f(y) ==> x == y
  }

  lemma ByKeyOrders<T(!new)>(key: T -> string)
    ensures StrictWeakOrder(ByKey(key))
  {
    var less := ByKey(key);
    forall x ensures !less(x, x) { LexTotal(key(x), key(x)); }
    forall x, y, z | less(x, y) && less(y, z) ensures less(x, z) {
      LexTransitive(key(x), key(y), key(z));
    }
    forall x, y, z | less(x, z) ensures less(x, y) || less(y, z) {
      LexTotal(key(x), key(y));
      LexTotal(key(y), key(z));
      if less(y, x) {
        LexTransitive(key(y), key(x), key(z));
      }
    }
  }

  /** Sorted by a key, only equal elements tie exactly when no keys collide. */
  lemma ByKeyTieFree<T(!new)>(s: seq<T>, key: T -> string)
    ensures TieFree(s, ByKey(key)) <==> Injective(key, iset x | x in s)
  {
    forall x, y ensures ByKey(key)(x, y) || ByKey(key)(y, x) <==> key(x) != key(y) {
      LexTotal(key(x), key(y));
    }
  }

  function Map<A, B>(f: A -> B, s: seq<A>): (r: seq<B>)
    ensures |r| == |s| && forall i :: 0 <= i < |s| ==> r[i] == f(s[i])
  {
    seq(|s|, i requires 0 <= i < |s| => f(s[i]))
  }

  /** Mapping respects permutation. */
  lemma {:induction false} MapPermutes<A, B>(f: A -> B, s: seq<A>, t: seq<A>)
    requires multiset(s) == multiset(t)
    ensures multiset(Map(f, s)) == multiset(Map(f, t))
  {
    if s == [] {
      assert t == [] by { assert |multiset(t)| == |t|; }
    } else {
      var j := MatchFirst(s, t);
      var s', t' := s[..0] + s[1..], t[..j] + t[j + 1..];
      MapWithoutOne(f, s, 0);
      MapWithoutOne(f, t, j);
      MapPermutes(f, s', t');
    }
  }

  /** A permutation has the first element somewhere; without it the rests are
      permutations of each other. */
  lemma MatchFirst<A>(s: seq<A>, t: seq<A>) returns (j: nat)
    requires multiset(s) == multiset(t) && s != []
    ensures j < |t| && t[j] == s[0] && multiset(s[..0] + s[1..]) == multiset(t[..j] + t[j + 1..])
  {
    assert s[0] in multiset(t);
    j :| 0 <= j < |t| && t[j] == s[0];
    WithoutOne(s, 0);
    WithoutOne(t, j);
    CancelOne(multiset(s[..0] + s[1..]), multiset(t[..j] + t[j + 1..]), s[0]);
  }

  lemma CancelOne<A>(m: multiset<A>, n: multiset<A>, x: A)
    requires m + multiset{x} == n + multiset{x}
    ensures m == n
  {
    assert m == (m + multiset{x}) - multiset{x};
    assert n == (n + multiset{x}) - multiset{x};
  }

  lemma WithoutOne<A>(t: seq<A>, j: nat)
    requires j < |t|
    ensures multiset(t) == multiset(t[..j] + t[j + 1..]) + multiset{t[j]}
  {
    assert t == t[..j] + [t[j]] + t[j + 1..];
  }

  lemma MapWithoutOne<A, B>(f: A -> B, t: seq<A>, j: nat)
    requires j < |t|
    ensures multiset(Map(f, t)) == multiset(Map(f, t[..j] + t[j + 1..])) + multiset{f(t[j])}
  {
    var m := Map(f, t);
    WithoutOne(m, j);
    assert Map(f, t[..j] + t[j + 1..]) == m[..j] + m[j + 1..];
  }
}
