/** The canonical order of Endpoints subsets. */
module Endpoints {
  import opened Sorting
  import opened Json

  datatype Address = Address(ip: string, targetUID: Option<string>, hostname: string, nodeName: Option<string>)
  datatype Port = Port(name: string, port: int, protocol: string, appProtocol: Option<string>)
  datatype Subset = Subset(addresses: seq<Address>, notReady: seq<Address>, ports: seq<Port>)

  predicate LessEndpointAddress(a: Address, b: Address) {
    if a.ip != b.ip then LexLess(a.ip, b.ip)
    else if b.targetUID.None? then false
    else if a.targetUID.None? then true
    else LexLess(a.targetUID.value, b.targetUID.value)
  }

  lemma LessEndpointAddressOrders()
    ensures StrictWeakOrder(LessEndpointAddress)
  {
    forall x: Address ensures !LessEndpointAddress(x, x) {
      if x.targetUID.Some? {
        LexTotal(x.targetUID.value, x.targetUID.value);
      }
    }
    forall x: Address, y: Address, z: Address
      ensures LessEndpointAddress(x, y) && LessEndpointAddress(y, z) ==> LessEndpointAddress(x, z)
      ensures LessEndpointAddress(x, z) ==> LessEndpointAddress(x, y) || LessEndpointAddress(y, z)
    {
      LexWeak(x.ip, y.ip, z.ip);
      if x.targetUID.Some? && y.targetUID.Some? && z.targetUID.Some? {
        LexWeak(x.targetUID.value, y.targetUID.value, z.targetUID.value);
      }
    }
  }

  lemma LexWeak(a: string, b: string, c: string)
    ensures LexLess(a, b) && LexLess(b, c) ==> LexLess(a, c)
    ensures LexLess(a, c) ==> LexLess(a, b) || LexLess(b, c)
    ensures !LexLess(a, a) && !(LexLess(a, b) && LexLess(b, a))
    ensures a != b ==> LexLess(a, b) || LexLess(b, a)
  {
    LexTotal(a, b);
    LexTotal(b, c);
    LexTotal(a, a);
    if LexLess(a, b) && LexLess(b, c) {
      LexTransitive(a, b, c);
    }
    if LexLess(b, a) && LexLess(a, c) {
      LexTransitive(b, a, c);
    }
  }

  /** `t` is a possible outcome of sorting the three lists of `s`. */
  ghost predicate InnerSortOf(s: Subset, hashPort: Port -> string, t: Subset) {
    && SortOf(s.addresses, LessEndpointAddress, t.addresses)
    && SortOf(s.notReady, LessEndpointAddress, t.notReady)
    && SortOf(s.ports, ByKey(hashPort), t.ports)
  }

  /** `r` is a possible outcome of `SortSubsets` on `s`; `inner` is the slice
      between the two levels of sorting. */
  ghost predicate SubsetsSortOf(s: seq<Subset>, hashSubset: Subset -> string, hashPort: Port -> string,
                                inner: seq<Subset>, r: seq<Subset>) {
    && |inner| == |s|
    && (forall i :: 0 <= i < |s| ==> InnerSortOf(s[i], hashPort, inner[i]))
    && SortOf(inner, ByKey(hashSubset), r)
  }

  method SortSubsets(subsets: array<Subset>, hashSubset: Subset -> string, hashPort: Port -> string)
    returns (ghost inner: seq<Subset>)
    modifies subsets
    ensures SubsetsSortOf(old(subsets[..]), hashSubset, hashPort, inner, subsets[..])
  {
    LessEndpointAddressOrders();
    ByKeyOrders(hashPort);
    ByKeyOrders(hashSubset);
    for i := 0 to subsets.Length
      invariant forall j :: 0 <= j < i ==> InnerSortOf(old(subsets[j]), hashPort, subsets[j])
      invariant forall j :: i <= j < subsets.Length ==> subsets[j] == old(subsets[j])
    {
      var ss := subsets[i];
      var addresses := Sort(ss.addresses, LessEndpointAddress);
      var notReady := Sort(ss.notReady, LessEndpointAddress);
      var ports := Sort(ss.ports, ByKey(hashPort));
      subsets[i] := Subset(addresses, notReady, ports);
    }
    inner := subsets[..];
    SortSlice(subsets, ByKey(hashSubset));
  }

  /** Addresses come by IP, of one IP those without a target first, then by the
      UID of their target. */
  predicate AddressesInOrder(s: seq<Address>) {
    forall i, j :: 0 <= i < j < |s| ==>
      var a, b := s[i], s[j];
      || LexLess(a.ip, b.ip)
      || (a.ip == b.ip && (a.targetUID.None? || (b.targetUID.Some? && !LexLess(b.targetUID.value, a.targetUID.value))))
  }

  predicate HashesInOrder<T>(s: seq<T>, hash: T -> string) {
    forall i, j :: 0 <= i < j < |s| ==> !LexLess(hash(s[j]), hash(s[i]))
  }

  /** The outcome in full: the same subsets, each with the same contents, all
      lists in order. */
  lemma SortedInFull(s: seq<Subset>, hashSubset: Subset -> string, hashPort: Port -> string, inner: seq<Subset>,
                     r: seq<Subset>)
    requires SubsetsSortOf(s, hashSubset, hashPort, inner, r)
    ensures HashesInOrder(r, hashSubset)
    ensures SameEndpoints(s, r, inner)
    ensures forall t :: t in r ==>
              AddressesInOrder(t.addresses) && AddressesInOrder(t.notReady) && HashesInOrder(t.ports, hashPort)
  {
    assert |inner| == |s|;
    forall t | t in r
      ensures AddressesInOrder(t.addresses) && AddressesInOrder(t.notReady) && HashesInOrder(t.ports, hashPort)
    {
      assert t in multiset(r);
      var i :| 0 <= i < |inner| && inner[i] == t;
      SortedAddresses(t.addresses);
      SortedAddresses(t.notReady);
    }
  }

  lemma SortedAddresses(s: seq<Address>)
    requires SortedBy(s, LessEndpointAddress)
    ensures AddressesInOrder(s)
  {
    forall i, j | 0 <= i < j < |s|
      ensures var a, b := s[i], s[j];
              || LexLess(a.ip, b.ip)
              || (a.ip == b.ip &&
                  (a.targetUID.None? || (b.targetUID.Some? && !LexLess(b.targetUID.value, a.targetUID.value))))
    {
      LexTotal(s[i].ip, s[j].ip);
    }
  }

  ghost predicate Rearranged(s: Subset, t: Subset) {
    && multiset(s.addresses) == multiset(t.addresses)
    && multiset(s.notReady) == multiset(t.notReady)
    && multiset(s.ports) == multiset(t.ports)
  }

  /** `b` is `a` up to the order of the subsets, and of the lists in each;
      `b'` is `b` with its subsets put in the order of `a`. */
  ghost predicate SameEndpoints(a: seq<Subset>, b: seq<Subset>, b': seq<Subset>) {
    && multiset(b') == multiset(b) && |a| == |b'|
    && forall i :: 0 <= i < |a| ==> Rearranged(a[i], b'[i])
  }

  /** Within each list no two different addresses share IP and target, and no
      two different ports a hash. */
  ghost predicate KeysDistinct(s: Subset, hashPort: Port -> string) {
    && TieFree(s.addresses, LessEndpointAddress) && TieFree(s.notReady, LessEndpointAddress)
    && TieFree(s.ports, ByKey(hashPort))
  }

  function InnerSorted(hashPort: Port -> string): Subset -> Subset {
    (s: Subset) => Subset(StableSort(s.addresses, LessEndpointAddress), StableSort(s.notReady, LessEndpointAddress),
                          StableSort(s.ports, ByKey(hashPort)))
  }

  /** `SortSubsets` with a stable sort. */
  function StablySorted(a: seq<Subset>, hashSubset: Subset -> string, hashPort: Port -> string): seq<Subset> {
    StableSort(Map(InnerSorted(hashPort), a), ByKey(hashSubset))
  }

  lemma InnerSortedSorts(s: Subset, hashPort: Port -> string)
    ensures InnerSortOf(s, hashPort, InnerSorted(hashPort)(s))
  {
    LessEndpointAddressOrders();
    ByKeyOrders(hashPort);
    StableSortSorts(s.addresses, LessEndpointAddress);
    StableSortSorts(s.notReady, LessEndpointAddress);
    StableSortSorts(s.ports, ByKey(hashPort));
  }

  lemma StablySortedSorts(a: seq<Subset>, hashSubset: Subset -> string, hashPort: Port -> string)
    ensures SubsetsSortOf(a, hashSubset, hashPort, Map(InnerSorted(hashPort), a), StablySorted(a, hashSubset, hashPort))
  {
    forall i | 0 <= i < |a| ensures InnerSortOf(a[i], hashPort, InnerSorted(hashPort)(a[i])) {
      InnerSortedSorts(a[i], hashPort);
    }
    ByKeyOrders(hashSubset);
    StableSortSorts(Map(InnerSorted(hashPort), a), ByKey(hashSubset));
  }

  /** Rearranged lists sort to the same, by any sort. */
  lemma InnerSortUnique(s: Subset, s': Subset, hashPort: Port -> string, t: Subset)
    requires KeysDistinct(s, hashPort) && Rearranged(s, s') && InnerSortOf(s', hashPort, t)
    ensures t == InnerSorted(hashPort)(s)
  {
    LessEndpointAddressOrders();
    ByKeyOrders(hashPort);
    UniqueOutcome(s.addresses, t.addresses, s'.addresses, LessEndpointAddress);
    UniqueOutcome(s.notReady, t.notReady, s'.notReady, LessEndpointAddress);
    UniqueOutcome(s.ports, t.ports, s'.ports, ByKey(hashPort));
  }

  /** No two different sorted subsets of `a` share a hash. */
  ghost predicate SubsetsDistinct(a: seq<Subset>, hashSubset: Subset -> string, hashPort: Port -> string) {
    TieFree(Map(InnerSorted(hashPort), a), ByKey(hashSubset))
  }

  /** `SortSubsets` is a canonical form: equal Endpoints sort identically, by
      any sort. */
  lemma SortSubsetsCanonical(a: seq<Subset>, b: seq<Subset>, b': seq<Subset>,
                             hashSubset: Subset -> string, hashPort: Port -> string,
                             innerB: seq<Subset>, rb: seq<Subset>)
    requires SameEndpoints(a, b, b') && (forall s :: s in a ==> KeysDistinct(s, hashPort))
    requires SubsetsDistinct(a, hashSubset, hashPort)
    requires SubsetsSortOf(b, hashSubset, hashPort, innerB, rb)
    ensures rb == StablySorted(a, hashSubset, hashPort)
  {
    hide KeysDistinct, InnerSortOf, StableSort;
    var f := InnerSorted(hashPort);
    forall i | 0 <= i < |a| ensures f(b'[i]) == f(a[i]) {
      InnerSortedSorts(b'[i], hashPort);
      InnerSortUnique(a[i], b'[i], hashPort, f(b'[i]));
    }
    assert Map(f, b') == Map(f, a);
    forall i | 0 <= i < |b| ensures innerB[i] == f(b[i]) {
      AllDistinct(a, b, b', hashPort, i);
      InnerSortUnique(b[i], b[i], hashPort, innerB[i]);
    }
    assert innerB == Map(f, b);
    MapPermutes(f, b', b);
    ByKeyOrders(hashSubset);
    UniqueOutcome(Map(f, a), rb, innerB, ByKey(hashSubset));
  }

  lemma AllDistinct(a: seq<Subset>, b: seq<Subset>, b': seq<Subset>, hashPort: Port -> string, i: nat)
    requires SameEndpoints(a, b, b') && (forall s :: s in a ==> KeysDistinct(s, hashPort)) && i < |b|
    ensures KeysDistinct(b[i], hashPort)
  {
    assert b[i] in multiset(b');
    var j :| 0 <= j < |b'| && b'[j] == b[i];
    RearrangedDistinct(a[j], b'[j], hashPort);
  }

  lemma RearrangedDistinct(s: Subset, t: Subset, hashPort: Port -> string)
    requires Rearranged(s, t) && KeysDistinct(s, hashPort)
    ensures KeysDistinct(t, hashPort)
  {
    assert forall x :: x in t.addresses ==> x in multiset(s.addresses);
    assert forall x :: x in t.notReady ==> x in multiset(s.notReady);
    assert forall x :: x in t.ports ==> x in multiset(s.ports);
  }

  // ------------------------------------------------------- when it is canonical

  /** Some rearrangement of a subset whose keys are not distinct is sorted
      differently by a stable sort. */
  lemma RearrangementShows(s: Subset, hashPort: Port -> string) returns (s': Subset)
    requires !KeysDistinct(s, hashPort)
    ensures Rearranged(s, s') && InnerSorted(hashPort)(s') != InnerSorted(hashPort)(s)
  {
    hide StableSort, StrictWeakOrder, LessEndpointAddress, ByKey, TieFree;
    LessEndpointAddressOrders();
    ByKeyOrders(hashPort);
    if !TieFree(s.addresses, LessEndpointAddress) {
      var i, j := FindTie(s.addresses, LessEndpointAddress);
      SwapShows(s.addresses, i, j, LessEndpointAddress);
      s' := s.(addresses := Swapped(s.addresses, i, j));
    } else if !TieFree(s.notReady, LessEndpointAddress) {
      var i, j := FindTie(s.notReady, LessEndpointAddress);
      SwapShows(s.notReady, i, j, LessEndpointAddress);
      s' := s.(notReady := Swapped(s.notReady, i, j));
    } else {
      var i, j := FindTie(s.ports, ByKey(hashPort));
      SwapShows(s.ports, i, j, ByKey(hashPort));
      s' := s.(ports := Swapped(s.ports, i, j));
    }
  }

  lemma OneChanged<T>(s: seq<T>, i: nat, y: T)
    requires i < |s| && y != s[i]
    ensures multiset(s[i := y]) != multiset(s)
  {
    assert multiset(s[i := y])[y] == multiset(s)[y] + 1;
  }

  lemma OneSubsetShows(a: seq<Subset>, i: nat, hashSubset: Subset -> string, hashPort: Port -> string)
    returns (b: seq<Subset>)
    requires i < |a| && !KeysDistinct(a[i], hashPort)
    ensures SameEndpoints(a, b, b) && StablySorted(b, hashSubset, hashPort) != StablySorted(a, hashSubset, hashPort)
  {
    hide KeysDistinct, StableSort, InnerSorted;
    var f := InnerSorted(hashPort);
    var s' := RearrangementShows(a[i], hashPort);
    b := a[i := s'];
    assert Map(f, b) == Map(f, a)[i := f(s')];
    OneChanged(Map(f, a), i, f(s'));
  }

  lemma OuterOrderShows(a: seq<Subset>, hashSubset: Subset -> string, hashPort: Port -> string)
    returns (b: seq<Subset>)
    requires !SubsetsDistinct(a, hashSubset, hashPort)
    ensures SameEndpoints(a, b, a) && StablySorted(b, hashSubset, hashPort) != StablySorted(a, hashSubset, hashPort)
  {
    hide StableSort, InnerSorted, TieFree;
    var f := InnerSorted(hashPort);
    var i, j := FindTie(Map(f, a), ByKey(hashSubset));
    ByKeyOrders(hashSubset);
    SwapShows(Map(f, a), i, j, ByKey(hashSubset));
    b := Swapped(a, i, j);
    assert Map(f, b) == Swapped(Map(f, a), i, j);
  }

  /** With a stable sort, all orders of `a` sort identically exactly when no two
      different addresses of a list share IP and target, no two different ports
      of one a hash, and no two different sorted subsets a hash. */
  lemma SortSubsetsCanonicalExactly(a: seq<Subset>, hashSubset: Subset -> string, hashPort: Port -> string)
    ensures (forall b, b' :: SameEndpoints(a, b, b') ==>
               StablySorted(b, hashSubset, hashPort) == StablySorted(a, hashSubset, hashPort))
       <==> (forall s :: s in a ==> KeysDistinct(s, hashPort)) && SubsetsDistinct(a, hashSubset, hashPort)
  {
    hide KeysDistinct, StablySorted, SubsetsDistinct, SameEndpoints;
    if (forall s :: s in a ==> KeysDistinct(s, hashPort)) && SubsetsDistinct(a, hashSubset, hashPort) {
      forall b, b' | SameEndpoints(a, b, b')
        ensures StablySorted(b, hashSubset, hashPort) == StablySorted(a, hashSubset, hashPort)
      {
        StablySortedSorts(b, hashSubset, hashPort);
        SortSubsetsCanonical(a, b, b', hashSubset, hashPort, Map(InnerSorted(hashPort), b),
                             StablySorted(b, hashSubset, hashPort));
      }
    } else if !SubsetsDistinct(a, hashSubset, hashPort) {
      var b := OuterOrderShows(a, hashSubset, hashPort);
    } else {
      var i :| 0 <= i < |a| && !KeysDistinct(a[i], hashPort);
      var b := OneSubsetShows(a, i, hashSubset, hashPort);
    }
  }
}
