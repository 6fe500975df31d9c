/** JSON documents, and the projection of a live document onto a configured one. */
module Json {

  /** Numbers are kept as their canonical text. */
  datatype Json =
    | Null
    | Bool(b: bool)
    | Num(digits: string)
    | Str(s: string)
    | Arr(items: seq<Json>)
    | Obj(fields: map<string, Json>)

  type Fields = map<string, Json>

  datatype Option<+T> = None | Some(value: T)

  /** Two maps agree at a key: both lack it, or both map it to the same. */
  predicate SameAt<K, V(==)>(a: map<K, V>, b: map<K, V>, k: K) {
    (k in a <==> k in b) && (k in a ==> a[k] == b[k])
  }

  /** `c` is embedded in `l`: maps key by key, lists with the same length and
      element by element, everything else equal. */
  predicate Embedded(c: Json, l: Json) {
    match c
    case Obj(cf) => l.Obj? && forall k :: k in cf ==> k in l.fields && Embedded(cf[k], l.fields[k])
    case Arr(ci) => l.Arr? && |ci| == |l.items| && forall i :: 0 <= i < |ci| ==> Embedded(ci[i], l.items[i])
    case _ => c == l
  }

  /** No null anywhere in the document. */
  predicate NullFree(j: Json) {
    match j
    case Null => false
    case Obj(f) => forall k :: k in f ==> NullFree(f[k])
    case Arr(s) => forall i :: 0 <= i < |s| ==> NullFree(s[i])
    case _ => true
  }

  /** What `removeFields` leaves of `live`. */
  function Project(config: Json, live: Json): Json {
    if config.Obj? && live.Obj? then
      Obj(map k | k in config.fields && k in live.fields :: Project(config.fields[k], live.fields[k]))
    else if config.Arr? && live.Arr? then
      Arr(seq(|live.items|, i requires 0 <= i < |live.items| =>
        if i < |config.items| then Project(config.items[i], live.items[i]) else live.items[i]))
    else live
  }

  function ProjectMap(config: Fields, live: Fields): Fields {
    Project(Obj(config), Obj(live)).fields
  }

  function ProjectList(config: seq<Json>, live: seq<Json>): seq<Json> {
    Project(Arr(config), Arr(live)).items
  }

  /** The recursive case of the source: dispatch on the two dynamic types. */
  method RemoveFields(config: Json, live: Json) returns (r: Json)
    ensures r == Project(config, live)
    decreases config, 1
  {
    match config {
      case Obj(c) =>
        if live.Obj? {
          var m := RemoveMapFields(config, c, live.fields);
          return Obj(m);
        }
        return live;
      case Arr(c) =>
        if live.Arr? {
          var s := RemoveListFields(config, c, live.items);
          return Arr(s);
        }
        return live;
      case _ => return live;
    }
  }

  /** Fills a fresh map, visiting the configured keys in any order. `whole` is
      the document `config` belongs to; it only bounds the recursion. */
  method RemoveMapFields(ghost whole: Json, config: Fields, live: Fields) returns (result: Fields)
    requires whole == Obj(config)
    ensures result == ProjectMap(config, live)
    decreases whole, 0
  {
    result := map[];
    var rest := config.Keys;
    while rest != {}
      invariant rest <= config.Keys
      invariant result == map k | k in config && k in live && k !in rest :: Project(config[k], live[k])
      decreases rest
    {
      var k :| k in rest;
      rest := rest - {k};
      if k in live {
        var v2 := live[k];
        if v2 != Null {
          v2 := RemoveFields(config[k], v2);
        }
        result := result[k := v2];
      }
    }
  }

  /** Elements beyond the configured list are returned untouched. */
  method RemoveListFields(ghost whole: Json, config: seq<Json>, live: seq<Json>) returns (result: seq<Json>)
    requires whole == Arr(config)
    ensures result == ProjectList(config, live)
    decreases whole, 0
  {
    result := [];
    for i := 0 to |live|
      invariant |result| == i
      invariant forall j :: 0 <= j < i ==> result[j] == ProjectList(config, live)[j]
    {
      var v2 := live[i];
      if |config| > i {
        if v2 != Null {
          v2 := RemoveFields(config[i], v2);
        }
        assert v2 == Project(config[i], live[i]);
      }
      result := result + [v2];
    }
  }

  /** A document is its own projection, and survives exactly when embedded. */
  lemma {:induction false} ProjectionFixesEmbedded(c: Json, l: Json)
    ensures Project(c, l) == c <==> Embedded(c, l)
  {
    if c.Obj? && l.Obj? {
      forall k | k in c.fields && k in l.fields
        ensures Project(c.fields[k], l.fields[k]) == c.fields[k] <==> Embedded(c.fields[k], l.fields[k])
      {
        ProjectionFixesEmbedded(c.fields[k], l.fields[k]);
      }
      var p := Project(c, l).fields;
      if p == c.fields {
        assert forall k :: k in c.fields ==> k in p && p[k] == c.fields[k];
      }
      if Embedded(c, l) {
        assert p == c.fields;
      }
    } else if c.Arr? && l.Arr? {
      var p := Project(c, l).items;
      if |c.items| == |l.items| {
        forall i | 0 <= i < |c.items|
          ensures p[i] == c.items[i] <==> Embedded(c.items[i], l.items[i])
        {
          ProjectionFixesEmbedded(c.items[i], l.items[i]);
        }
      }
      assert p == c.items <==> |p| == |c.items| && forall i :: 0 <= i < |p| ==> p[i] == c.items[i];
    }
  }

  lemma {:induction false} EmbeddedReflexive(j: Json)
    ensures Embedded(j, j)
  {
    match j {
      case Obj(f) => forall k | k in f ensures Embedded(f[k], f[k]) { EmbeddedReflexive(f[k]); }
      case Arr(s) => forall i | 0 <= i < |s| ensures Embedded(s[i], s[i]) { EmbeddedReflexive(s[i]); }
      case _ =>
    }
  }

  /** Whatever survives the projection is live's own value, at every depth. */
  lemma {:induction false} ProjectionEmbedded(c: Json, l: Json)
    ensures Embedded(Project(c, l), l)
  {
    if c.Obj? && l.Obj? {
      forall k | k in c.fields && k in l.fields
        ensures Embedded(Project(c, l).fields[k], l.fields[k])
      {
        ProjectionEmbedded(c.fields[k], l.fields[k]);
      }
    } else if c.Arr? && l.Arr? {
      forall i | 0 <= i < |l.items|
        ensures Embedded(Project(c, l).items[i], l.items[i])
      {
        if i < |c.items| {
          ProjectionEmbedded(c.items[i], l.items[i]);
        } else {
          EmbeddedReflexive(l.items[i]);
        }
      }
    } else {
      EmbeddedReflexive(l);
    }
  }

  lemma {:induction false} ProjectionSelf(c: Json)
    ensures Project(c, c) == c
  {
    EmbeddedReflexive(c);
    ProjectionFixesEmbedded(c, c);
  }

  /** Projecting twice changes nothing. */
  lemma {:induction false} ProjectionIdempotent(c: Json, l: Json)
    ensures Project(c, Project(c, l)) == Project(c, l)
  {
    var p := Project(c, l);
    if c.Obj? && l.Obj? {
      forall k | k in c.fields && k in l.fields
        ensures Project(c.fields[k], p.fields[k]) == p.fields[k]
      {
        ProjectionIdempotent(c.fields[k], l.fields[k]);
      }
      assert Project(c, p).fields == p.fields;
    } else if c.Arr? && l.Arr? {
      forall i | 0 <= i < |l.items|
        ensures Project(c, p).items[i] == p.items[i]
      {
        if i < |c.items| {
          ProjectionIdempotent(c.items[i], l.items[i]);
        }
      }
      assert Project(c, p).items == p.items;
    }
  }

  /** The value at the end of a path of map keys. */
  function Lookup(j: Json, path: seq<string>): Option<Json> {
    if path == [] then Some(j)
    else if j.Obj? && path[0] in j.fields then Lookup(j.fields[path[0]], path[1..])
    else None
  }

  /** `c` says something about `path`: it follows it to the end, or stops at a
      value that is not a map. */
  predicate Mentions(c: Json, path: seq<string>) {
    path == [] || !c.Obj? || (path[0] in c.fields && Mentions(c.fields[path[0]], path[1..]))
  }

  /** Exactly the mentioned paths of live survive. A path the configuration
      follows all the way carries the projection of live's value there; past
      the end of the configuration live's value is untouched. */
  lemma {:induction false} ProjectionPaths(c: Json, l: Json, path: seq<string>)
    ensures Lookup(Project(c, l), path).Some? <==> Lookup(l, path).Some? && Mentions(c, path)
    ensures Lookup(l, path).Some? && Lookup(c, path).Some? ==>
              Lookup(Project(c, l), path) == Some(Project(Lookup(c, path).value, Lookup(l, path).value))
    ensures Lookup(c, path).None? && Mentions(c, path) ==> Lookup(Project(c, l), path) == Lookup(l, path)
  {
    if path != [] && c.Obj? && l.Obj? && path[0] in c.fields && path[0] in l.fields {
      ProjectionPaths(c.fields[path[0]], l.fields[path[0]], path[1..]);
    }
  }
}
