/** Runs of several Konfigurations on one cluster, interleaved call by call. */
module Isolation {
  import opened Json
  import opened Objects
  import opened Cluster
  import opened Manager
  import opened Applying
  import opened Controller
  import opened Runs

  /** The cluster, and what each Konfiguration's run has listed for deletion. */
  datatype Shared = Shared(objs: map<Key, Live>, listed: map<Owner, set<Key>>)

  /** One call to the server: the write of an apply, a listing of pruning, the
      deletion of an object listed before, or a change from elsewhere. */
  datatype Call =
    | Touch(caller: Owner, checksum: string, o: Object, write: Write)
    | List(caller: Owner, deleting: bool, checksum: string, ns: string, g: GVK)
    | Delete(caller: Owner, key: Key)
    | Elsewhere(objs: map<Key, Live>)

  /** `claims`: the identities in all manifests a Konfiguration ever has. */
  datatype Setup = Setup(hash: Owner -> Hasher, claims: Owner -> iset<Key>)

  ghost predicate Apart(setup: Setup) {
    forall a: Owner, b: Owner, k: Key :: k in setup.claims(a) && k in setup.claims(b) ==> a == b
  }

  /** The settings of one call. Forcing and the diff decide which calls a run
      makes, not what they do. */
  function Acting(setup: Setup, a: Owner, deleting: bool): Settings {
    Settings(a, false, deleting, setup.hash(a), (o: Object, l: Live) => Drifted)
  }

  function Listed(s: Shared, a: Owner): set<Key> {
    if a in s.listed then s.listed[a] else {}
  }

  /** The objects a listing finds doomed. */
  function Found(m: Settings, checksum: string, objs: map<Key, Live>, ns: string, g: GVK): set<Key> {
    set k | k in objs && InListing(k, ns, g) && Doomed(m, objs[k], checksum)
  }

  function Written(objs: map<Key, Live>, x: Write): map<Key, Live> {
    match x
    case Put(k, l) => objs[k := l]
    case Remove(k) => objs - {k}
    case _ => objs
  }

  /** An apply patches, or deletes to recreate, an object of the caller's
      manifest; deletion goes by name alone, whatever became of the object since
      it was listed. Others do not hand out owner labels. */
  ghost predicate Allowed(setup: Setup, s: Shared, call: Call) {
    match call
    case Touch(a, checksum, o, x) =>
      Id(o) in setup.claims(a) && WritesObject(Acting(setup, a, false), checksum, o, s.objs, x)
    case List(_, _, _, _, _) => true
    case Delete(a, k) => k in Listed(s, a)
    case Elsewhere(objs) =>
      forall k, a: Owner :: k in objs && Matches(a, objs[k].labels) ==> k in s.objs && Matches(a, s.objs[k].labels)
  }

  function After(setup: Setup, s: Shared, call: Call): Shared {
    match call
    case Touch(_, _, _, x) => s.(objs := Written(s.objs, x))
    case List(a, deleting, checksum, ns, g) =>
      s.(listed := s.listed[a := Found(Acting(setup, a, deleting), checksum, s.objs, ns, g)])
    case Delete(a, k) => s.(objs := Reaped(s.objs, {k}))
    case Elsewhere(objs) => s.(objs := objs)
  }

  /** What is labelled for a Konfiguration comes from its manifests, and so does
      what it is about to delete. */
  ghost predicate Sorted(setup: Setup, s: Shared) {
    && (forall a: Owner, k :: k in s.objs && Matches(a, s.objs[k].labels) ==> k in setup.claims(a))
    && (forall a: Owner, k :: k in Listed(s, a) ==> k in setup.claims(a))
  }

  predicate CalledBy(call: Call, a: Owner) {
    match call
    case Touch(caller, _, _, _) => caller == a
    case List(caller, _, _, _, _) => caller == a
    case Delete(caller, _) => caller == a
    case Elsewhere(_) => false
  }

  /** A stamped object is labelled for its owner and for no one else. */
  lemma StampedFor(m: Settings, checksum: string, o: Object, l: Live, b: Owner)
    requires Embeds(Stamp(m, checksum, o), l) && Matches(b, l.labels)
    ensures b == m.owner
  {
    var s := Stamp(m, checksum, o);
    assert NAME_LABEL in s.labels && NAMESPACE_LABEL in s.labels;
    assert NAME_LABEL in SelectorLabels(b) && NAMESPACE_LABEL in SelectorLabels(b);
  }

  /** A call changes objects of the caller's manifests only. */
  lemma CallerKeepsToItsOwn(setup: Setup, s: Shared, call: Call, a: Owner, k: Key)
    requires Sorted(setup, s) && Allowed(setup, s, call) && CalledBy(call, a) && k !in setup.claims(a)
    ensures SameAt(s.objs, After(setup, s, call).objs, k)
  {
  }

  lemma CallKeepsSorted(setup: Setup, s: Shared, call: Call)
    requires Apart(setup) && Sorted(setup, s) && Allowed(setup, s, call)
    ensures Sorted(setup, After(setup, s, call))
  {
    hide Embeds, Stamp, InListing, ShouldNotPrune, IsOrphaned;
    var s' := After(setup, s, call);
    forall b: Owner, k | k in s'.objs && Matches(b, s'.objs[k].labels) ensures k in setup.claims(b) {
      if call.Touch? && call.write.Put? && k == call.write.key
        && Embeds(Stamp(Acting(setup, call.caller, false), call.checksum, call.o), call.write.live)
      {
        StampedFor(Acting(setup, call.caller, false), call.checksum, call.o, call.write.live, b);
      }
    }
  }

  ghost predicate AllAllowed(setup: Setup, s: Shared, calls: seq<Call>)
    decreases calls
  {
    calls == [] || (Allowed(setup, s, calls[0]) && AllAllowed(setup, After(setup, s, calls[0]), calls[1..]))
  }

  function AfterAll(setup: Setup, s: Shared, calls: seq<Call>): Shared
    decreases calls
  {
    if calls == [] then s else AfterAll(setup, After(setup, s, calls[0]), calls[1..])
  }

  /** However calls interleave, each labelled object stays one of its owner's
      manifests. */
  lemma {:induction false} InterleavingKeepsSorted(setup: Setup, s: Shared, calls: seq<Call>)
    requires Apart(setup) && Sorted(setup, s) && AllAllowed(setup, s, calls)
    ensures Sorted(setup, AfterAll(setup, s, calls))
    decreases calls
  {
    hide Sorted, Allowed, After, Apart;
    if calls != [] {
      CallKeepsSorted(setup, s, calls[0]);
      InterleavingKeepsSorted(setup, After(setup, s, calls[0]), calls[1..]);
    }
  }

  /** In every sequence of calls, however they interleave and whatever changes
      elsewhere, each call leaves every object labelled for another Konfiguration
      than the caller, and every identity in its manifests, as it was. */
  lemma {:induction false} EachCallSparesOthers(setup: Setup, s: Shared, calls: seq<Call>, n: nat, b: Owner, k: Key)
    requires Apart(setup) && Sorted(setup, s) && AllAllowed(setup, s, calls)
    requires n < |calls| && !calls[n].Elsewhere? && !CalledBy(calls[n], b)
    requires var here := AfterAll(setup, s, calls[..n]);
             k in setup.claims(b) || (k in here.objs && Matches(b, here.objs[k].labels))
    ensures SameAt(AfterAll(setup, s, calls[..n]).objs, AfterAll(setup, s, calls[..n + 1]).objs, k)
    decreases n
  {
    hide Allowed, After, Matches;
    CallKeepsSorted(setup, s, calls[0]);
    var next := After(setup, s, calls[0]);
    assert calls[..n + 1][0] == calls[0] && calls[..n + 1][1..] == calls[1..][..n];
    if n == 0 {
      assert calls[1..][..0] == [];
      assert k in setup.claims(b);
      CallerKeepsToItsOwn(setup, s, calls[0], calls[0].caller, k);
    } else {
      assert calls[..n][0] == calls[0] && calls[..n][1..] == calls[1..][..n - 1];
      EachCallSparesOthers(setup, next, calls[1..], n - 1, b, k);
    }
  }

  /** So while only others call, all of it stays. */
  lemma {:induction false} OthersLeaveItAlone(setup: Setup, s: Shared, calls: seq<Call>, b: Owner, k: Key)
    requires Apart(setup) && Sorted(setup, s) && AllAllowed(setup, s, calls)
    requires forall call :: call in calls ==> !call.Elsewhere? && !CalledBy(call, b)
    requires k in setup.claims(b) || (k in s.objs && Matches(b, s.objs[k].labels))
    ensures SameAt(s.objs, AfterAll(setup, s, calls).objs, k)
    decreases calls
  {
    hide Allowed, After, Matches;
    if calls != [] {
      var call := calls[0];
      assert call in calls && k in setup.claims(b);
      CallerKeepsToItsOwn(setup, s, call, call.caller, k);
      CallKeepsSorted(setup, s, call);
      OthersLeaveItAlone(setup, After(setup, s, call), calls[1..], b, k);
    }
  }

  /** What a run does to objects, it does by such calls: it touches an object of
      its manifest, or deletes one that a listing just found. */
  lemma RunsMakeCalls(setup: Setup, c: Config, r: Run, objects: seq<Object>, w: World, x: Write, listed: map<Owner,
                      set<Key>>)
    requires LawfulTouch(c, r, objects, w, x) && setup.hash(c.owner) == c.hash
    requires forall o :: o in objects ==> Id(o) in setup.claims(c.owner)
    ensures exists first, second :: MadeOf(setup, c.owner, Shared(w.objs, listed), first, second, Do(w, x).objs)
  {
    hide WritesObject, Doomed, MadeOf;
    var m, a, s, sum := SettingsOf(c, r.spec), c.owner, Shared(w.objs, listed), Checksum(c, r);
    if ApplyRule(m, sum, objects)(w, x) {
      var o :| o in objects && WritesObject(m, sum, o, w.objs, x);
      ApplyCalls(setup, m, sum, o, s, w, x);
    } else {
      PruneCalls(setup, m, sum, s, w, x);
    }
  }

  lemma ApplyCalls(setup: Setup, m: Settings, checksum: string, o: Object, s: Shared, w: World, x: Write)
    requires WritesObject(m, checksum, o, w.objs, x) && s.objs == w.objs
    requires setup.hash(m.owner) == m.hash && Id(o) in setup.claims(m.owner)
    ensures MadeOf(setup, m.owner, s, List(m.owner, m.deleting, checksum, "", Gvk(o)),
                   Touch(m.owner, checksum, o, x), Do(w, x).objs)
  {
    hide Embeds, InListing, Doomed;
    assert Stamp(m, checksum, o) == Stamp(Acting(setup, m.owner, false), checksum, o);
  }

  lemma PruneCalls(setup: Setup, m: Settings, checksum: string, s: Shared, w: World, x: Write)
    requires PruneRule(m, checksum)(w, x) && s.objs == w.objs
    ensures MadeOf(setup, m.owner, s, List(m.owner, m.deleting, checksum, x.key.ns, x.key.gvk),
                   Delete(m.owner, x.key), Do(w, x).objs)
  {
    hide DeleteWrites, Matches, ShouldNotPrune;
    OneDeletion(w, x);
    var acting := Acting(setup, m.owner, m.deleting);
    assert x.key in Found(acting, checksum, w.objs, x.key.ns, x.key.gvk);
  }

  lemma OneDeletion(w: World, x: Write)
    requires (x.Put? || x.Remove?) && [x] == DeleteWrites(w.objs, x.key)
    ensures Do(w, x).objs == Reaped(w.objs, {x.key})
  {
    DeleteReaps(w, x.key);
    OneStep(w, x, (v: World, y: Write) => true);
  }

  /** Two calls of `a`, each allowed, lead to `objs`. */
  ghost predicate MadeOf(setup: Setup, a: Owner, s: Shared, first: Call, second: Call, objs: map<Key, Live>) {
    && CalledBy(first, a) && CalledBy(second, a)
    && Allowed(setup, s, first) && Allowed(setup, After(setup, s, first), second)
    && After(setup, After(setup, s, first), second).objs == objs
  }
}
