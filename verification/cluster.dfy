/** The API server as the controller sees it: live objects, the persisted
    Konfiguration, and the writes that change them. */
module Cluster {
  import opened Json
  import opened Objects
  import opened Snapshots

  datatype Live = Live(
    labels: map<string, string>, annotations: map<string, string>, meta: Fields, rest: Fields,
    finalizers: set<string>, terminating: bool)

  datatype Condition = IsTrue | IsFalse | IsUnknown

  /** The status subresource of a Konfiguration. */
  datatype Status = Status(
    observedGeneration: int, ready: Option<Condition>, healthy: Option<Condition>,
    lastAppliedRevision: string, lastAttemptedRevision: string, snapshot: Option<Snapshot>)

  /** The Konfiguration's own finalizer; once released the object is gone. */
  datatype Finalizer = Missing | Registered | Released

  datatype World = World(objs: map<Key, Live>, finalizer: Finalizer, status: Status)

  /** One write request that took effect. */
  datatype Write =
    | Put(key: Key, live: Live)
    | Remove(key: Key)
    | Save(status: Status)
    | AddFinalizer
    | DropFinalizer

  function Do(w: World, x: Write): World {
    match x
    case Put(k, l) => w.(objs := w.objs[k := l])
    case Remove(k) => w.(objs := w.objs - {k})
    case Save(s) => w.(status := s)
    case AddFinalizer => w.(finalizer := Registered)
    case DropFinalizer => w.(finalizer := Released)
  }

  function Replay(w: World, xs: seq<Write>): World
    decreases xs
  {
    if xs == [] then w else Replay(Do(w, xs[0]), xs[1..])
  }

  lemma {:induction false} ReplayConcat(w: World, xs: seq<Write>, ys: seq<Write>)
    ensures Replay(w, xs + ys) == Replay(Replay(w, xs), ys)
    decreases xs
  {
    if xs == [] {
      assert xs + ys == ys;
    } else {
      assert (xs + ys)[1..] == xs[1..] + ys;
      ReplayConcat(Do(w, xs[0]), xs[1..], ys);
    }
  }

  /** Each write, where it happens, obeys the rule. */
  ghost predicate Steps(w: World, xs: seq<Write>, rule: (World, Write) -> bool)
    decreases xs
  {
    xs == [] || (rule(w, xs[0]) && Steps(Do(w, xs[0]), xs[1..], rule))
  }

  lemma {:induction false} StepsConcat(w: World, xs: seq<Write>, ys: seq<Write>, rule: (World, Write) -> bool)
    requires Steps(w, xs, rule) && Steps(Replay(w, xs), ys, rule)
    ensures Steps(w, xs + ys, rule)
    decreases xs
  {
    if xs == [] {
      assert xs + ys == ys;
    } else {
      assert (xs + ys)[1..] == xs[1..] + ys;
      StepsConcat(Do(w, xs[0]), xs[1..], ys, rule);
    }
  }

  /** `inv` holds at the start and after every write, so also where a crash
      cuts the log short. */
  ghost predicate Always(w: World, xs: seq<Write>, inv: World -> bool) {
    forall n :: 0 <= n <= |xs| ==> inv(Replay(w, xs[..n]))
  }

  ghost predicate Keeps(rule: (World, Write) -> bool, inv: World -> bool) {
    forall w, x :: inv(w) && rule(w, x) ==> inv(Do(w, x))
  }

  /** What each lawful write keeps, a lawful log keeps throughout. */
  lemma {:induction false} LawfulLogKeeps(w: World, xs: seq<Write>, rule: (World, Write) -> bool, inv: World -> bool)
    requires Steps(w, xs, rule) && Keeps(rule, inv) && inv(w)
    ensures Always(w, xs, inv)
    decreases xs
  {
    forall n | 0 <= n <= |xs| ensures inv(Replay(w, xs[..n])) {
      if n > 0 {
        LawfulLogKeeps(Do(w, xs[0]), xs[1..], rule, inv);
        assert xs[..n][1..] == xs[1..][..n - 1];
        assert inv(Replay(Do(w, xs[0]), xs[1..][..n - 1]));
      }
    }
  }

  /** How a delete or a status request ends: a failed one may have landed. */
  datatype Ack = Done | Failed(landed: bool)

  predicate Landed(a: Ack) {
    a.Done? || a.landed
  }

  /** A delete marks the object, as finalizers hold it or it is being deleted
      already; else it removes it. */
  predicate Stays(l: Live) {
    l.finalizers != {} || l.terminating
  }

  /** The objects after deleting `dead`. */
  function Reaped(objs: map<Key, Live>, dead: set<Key>): map<Key, Live> {
    map k | k in objs && (k in dead ==> Stays(objs[k])) ::
      if k in dead then objs[k].(terminating := true) else objs[k]
  }

  function DeleteWrites(objs: map<Key, Live>, k: Key): seq<Write> {
    if k !in objs then []
    else if Stays(objs[k]) then [Put(k, objs[k].(terminating := true))]
    else [Remove(k)]
  }

  lemma DeleteReaps(w: World, k: Key)
    ensures Replay(w, DeleteWrites(w.objs, k)) == w.(objs := Reaped(w.objs, {k}))
  {
    var xs := DeleteWrites(w.objs, k);
    if xs != [] {
      assert Replay(w, xs) == Replay(Do(w, xs[0]), []);
    }
    assert Replay(w, xs).objs == Reaped(w.objs, {k});
  }

  lemma ReapNothing(objs: map<Key, Live>)
    ensures Reaped(objs, {}) == objs
  {
  }

  lemma ReapTwice(objs: map<Key, Live>, a: set<Key>, b: set<Key>)
    ensures Reaped(Reaped(objs, a), b) == Reaped(objs, a + b)
  {
  }

  function IfLanded(a: Ack, xs: seq<Write>): seq<Write> {
    if Landed(a) then xs else []
  }

  /** The server, with the log of the writes it has carried out. */
  class Api {
    var world: World
    ghost var log: seq<Write>

    constructor (w: World)
      ensures world == w && log == []
    {
      world, log := w, [];
    }

    method Carry(x: Write)
      modifies this
      ensures world == Do(old(world), x) && log == old(log) + [x]
    {
      world := Do(world, x);
      log := log + [x];
    }

    method Delete(k: Key, ack: Ack) returns (ok: bool)
      modifies this
      ensures ok == ack.Done?
      ensures log == old(log) + IfLanded(ack, DeleteWrites(old(world.objs), k))
      ensures world == Replay(old(world), IfLanded(ack, DeleteWrites(old(world.objs), k)))
    {
      if Landed(ack) && k in world.objs {
        if Stays(world.objs[k]) {
          Carry(Put(k, world.objs[k].(terminating := true)));
        } else {
          Carry(Remove(k));
        }
      }
      return ack.Done?;
    }
  }
}
