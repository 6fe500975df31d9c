/** Kubernetes objects as the controller handles them: group/version/kind,
    identity, labels and annotations, and the rest of the document. */
module Objects {
  import opened Json

  datatype GVK = GVK(group: string, version: string, kind: string)
  datatype Key = Key(gvk: GVK, ns: string, name: string)

  /** An unstructured object. `meta` is the metadata other than the fields
      named here, `rest` the top level other than them. */
  datatype Object = Object(
    apiVersion: string, kind: string, ns: string, name: string,
    labels: map<string, string>, annotations: map<string, string>,
    meta: Fields, rest: Fields)

  function IndexOf(s: string, c: char): (i: nat)
    ensures i <= |s| && c !in s[..i] && (i < |s| ==> s[i] == c) && (i == |s| <==> c !in s)
  {
    if s == [] || s[0] == c then 0
    else
      assert s == [s[0]] + s[1..];
      var i := 1 + IndexOf(s[1..], c);
      assert s[..i] == [s[0]] + s[1..][..i - 1];
      i
  }

  /** `schema.ParseGroupVersion`. */
  function ParseGroupVersion(gv: string): Option<(string, string)> {
    if gv == "" || gv == "/" then Some(("", ""))
    else
      var i := IndexOf(gv, '/');
      if i == |gv| then Some(("", gv))
      else if '/' in gv[i + 1..] then None
      else Some((gv[..i], gv[i + 1..]))
  }

  function Gvk(o: Object): GVK {
    match ParseGroupVersion(o.apiVersion)
    case Some((g, v)) => GVK(g, v, o.kind)
    case None => GVK("", "", "")
  }

  function Id(o: Object): Key {
    Key(Gvk(o), o.ns, o.name)
  }

  function StringField(f: Fields, k: string): string {
    if k in f && f[k].Str? then f[k].s else ""
  }

  function MapField(f: Fields, k: string): Fields {
    if k in f && f[k].Obj? then f[k].fields else map[]
  }

  /** A map of strings, or nothing when any value is not a string. */
  function StringMapField(f: Fields, k: string): map<string, string> {
    var m := MapField(f, k);
    if forall x :: x in m ==> m[x].Str? then map x | x in m :: m[x].s else map[]
  }

  /** A JSON map seen as an object. */
  function Wrap(f: Fields): Object {
    var m := MapField(f, "metadata");
    Object(StringField(f, "apiVersion"), StringField(f, "kind"), StringField(m, "namespace"), StringField(m, "name"),
           StringMapField(m, "labels"), StringMapField(m, "annotations"),
           m - {"namespace", "name", "labels", "annotations"}, f - {"apiVersion", "kind", "metadata"})
  }

  /** Metadata of another type than it should have is read as if it were not
      there, a map of strings as soon as one value is something else. */
  lemma WrongTypesAreAbsent(f: Fields)
    ensures var o, m := Wrap(f), Obj(MapField(f, "metadata"));
            && (forall v :: Lookup(m, ["namespace"]) == Some(v) && !v.Str? ==> o.ns == "")
            && (forall v :: Lookup(m, ["name"]) == Some(v) && !v.Str? ==> o.name == "")
            && (forall k, v :: Lookup(m, ["labels", k]) == Some(v) && !v.Str? ==> o.labels == map[])
            && (forall k, v :: Lookup(m, ["annotations", k]) == Some(v) && !v.Str? ==> o.annotations == map[])
            && (forall k, v :: Lookup(m, ["labels", k]) == Some(v) && k in o.labels ==> v == Str(o.labels[k]))
            && (forall k, v :: Lookup(m, ["annotations", k]) == Some(v) && k in o.annotations ==>
                  v == Str(o.annotations[k]))
  {
    var m := Obj(MapField(f, "metadata"));
    forall x: string, k: string
      ensures Lookup(m, [x]) == if x in m.fields then Some(m.fields[x]) else None
      ensures Lookup(m, [x, k]) == if x in m.fields && m.fields[x].Obj? && k in m.fields[x].fields
                                   then Some(m.fields[x].fields[k]) else None
    {
      TwoHops(m.fields, x, k);
    }
  }

  lemma TwoHops(f: Fields, x: string, k: string)
    ensures Lookup(Obj(f), [x]) == if x in f then Some(f[x]) else None
    ensures Lookup(Obj(f), [x, k]) == if x in f && f[x].Obj? && k in f[x].fields then Some(f[x].fields[k]) else None
  {
    assert [x][1..] == [] && [x, k][1..] == [k] && [k][1..] == [];
    if x in f {
      assert Lookup(f[x], []) == Some(f[x]);
      if f[x].Obj? && k in f[x].fields {
        assert Lookup(f[x].fields[k], []) == Some(f[x].fields[k]);
      }
    }
  }

  /** A document without nulls, taken apart as by `Wrap`. */
  predicate Plain(o: Object) {
    && NullFree(Obj(o.meta)) && NullFree(Obj(o.rest))
    && o.meta.Keys !! {"namespace", "name", "labels", "annotations"}
      && o.rest.Keys !! {"apiVersion", "kind", "metadata"}
  }

  lemma WrappedIsPlain(f: Fields)
    requires NullFree(Obj(f))
    ensures Plain(Wrap(f))
  {
    assert "metadata" in f ==> NullFree(f["metadata"]);
  }

  /** A version alone, or a group and a version around the only slash. */
  lemma ParsesExactly(gv: string, group: string, version: string)
    requires gv != "" && gv != "/"
    ensures ParseGroupVersion(gv) == Some((group, version)) <==>
              && '/' !in group && '/' !in version
              && (gv == group + "/" + version || (group == "" && gv == version))
  {
    var i := IndexOf(gv, '/');
    if i == |gv| {
      assert '/' !in gv;
      assert '/' in group + "/" + version by { assert (group + "/" + version)[|group|] == '/'; }
    } else {
      assert gv == gv[..i] + ['/'] + gv[i + 1..];
      if gv == group + "/" + version && '/' !in group {
        IndexOfFirst(group, '/', version);
        assert gv == group + ['/'] + version;
        assert gv[..|group|] == group && gv[|group| + 1..] == version;
      }
    }
  }

  /** The kind an apiVersion names, and the identity that comes with it: with
      more than one slash it names none. */
  lemma KindExactly(o: Object, group: string, version: string)
    requires '/' !in group && '/' !in version
    ensures o.apiVersion == group + "/" + version && (group != "" || version != "") ==>
              Id(o) == Key(GVK(group, version, o.kind), o.ns, o.name)
    ensures o.apiVersion == version ==> Id(o) == Key(GVK("", version, o.kind), o.ns, o.name)
    ensures forall more: string :: o.apiVersion == group + "/" + version + "/" + more ==>
              Id(o) == Key(GVK("", "", ""), o.ns, o.name)
  {
    if o.apiVersion != "" && o.apiVersion != "/" {
      ParsesExactly(o.apiVersion, group, version);
      ParsesExactly(o.apiVersion, "", version);
    }
    forall more: string | o.apiVersion == group + "/" + version + "/" + more ensures Gvk(o) == GVK("", "", "") {
      TwoSlashes(o.apiVersion, group, version, more);
    }
  }

  lemma TwoSlashes(gv: string, group: string, version: string, more: string)
    requires gv == group + "/" + version + "/" + more && '/' !in group
    ensures ParseGroupVersion(gv) == None
  {
    var rest := version + "/" + more;
    assert gv == group + ['/'] + rest && rest[|version|] == '/';
    IndexOfFirst(group, '/', rest);
    assert gv[|group| + 1..] == rest;
    assert |gv| > 1;
  }

  /** The string under which a snapshot files a kind. */
  function KindString(g: GVK): string {
    g.group + "/" + g.version + ", Kind=" + g.kind
  }

  /** The kind a snapshot reader makes of an entry; `None` is skipped. */
  function ReadKind(s: string, kind: string): Option<GVK> {
    if ',' in s then
      match ParseGroupVersion(s[..IndexOf(s, ',')])
      case Some((g, v)) => Some(GVK(g, v, kind))
      case None => None
    else None
  }

  predicate Clean(s: string) {
    '/' !in s && ',' !in s
  }

  lemma IndexOfFirst(pre: string, c: char, post: string)
    requires c !in pre
    ensures IndexOf(pre + [c] + post, c) == |pre|
  {
    var s := pre + [c] + post;
    var i := IndexOf(s, c);
    assert s[|pre|] == c && forall j :: 0 <= j < |pre| ==> s[j] == pre[j];
    assert forall j :: 0 <= j < i ==> s[..i][j] == s[j];
  }

  /** The parts of a parsed group/version come from it, without its slash. */
  lemma ParsedParts(gv: string)
    ensures var p := ParseGroupVersion(gv);
            p.Some? ==> forall c :: c in p.value.0 || c in p.value.1 ==> c in gv && c != '/'
  {
    var i := IndexOf(gv, '/');
    assert forall c :: c in gv[..i] ==> c in gv;
    if i < |gv| {
      assert forall c :: c in gv[i + 1..] ==> c in gv;
    }
  }

  /** Filing a kind and reading it back loses nothing exactly when neither its
      group nor its version contains a slash or a comma. */
  lemma KindRoundTrip(g: GVK)
    ensures ReadKind(KindString(g), g.kind) == Some(g) <==> Clean(g.group) && Clean(g.version)
  {
    var s := KindString(g);
    ParsedParts(s[..IndexOf(s, ',')]);
    if Clean(g.group) && Clean(g.version) {
      CleanRoundTrip(g);
    }
  }

  lemma CleanRoundTrip(g: GVK)
    requires Clean(g.group) && Clean(g.version)
    ensures ReadKind(KindString(g), g.kind) == Some(g)
  {
    var gv := g.group + "/" + g.version;
    var s := KindString(g);
    assert s == gv + [','] + (" Kind=" + g.kind);
    IndexOfFirst(gv, ',', " Kind=" + g.kind);
    assert s[..|gv|] == gv && s[|gv|] == ',';
    GroupVersionRoundTrip(g);
  }

  lemma GroupVersionRoundTrip(g: GVK)
    requires Clean(g.group) && Clean(g.version)
    ensures ParseGroupVersion(g.group + "/" + g.version) == Some((g.group, g.version))
  {
    var gv := g.group + "/" + g.version;
    assert gv == g.group + ['/'] + g.version;
    IndexOfFirst(g.group, '/', g.version);
    assert gv[..|g.group|] == g.group && gv[|g.group| + 1..] == g.version;
    assert gv[|g.group|] == '/';
    assert |gv| == |g.group| + 1 + |g.version|;
  }

  /** A kind as it is written into the status. */
  lemma KindAsWritten()
    ensures KindString(GVK("apps", "v1", "Deployment")) == "apps/v1, Kind=Deployment"
    ensures KindString(GVK("", "v1", "Secret")) == "/v1, Kind=Secret"
  {
  }

  /** An entry is read up to its first comma, the kind next to it. */
  lemma ReadsExactly(gv: string, tail: string, kind: string)
    requires ',' !in gv
    ensures ReadKind(gv, kind) == None
    ensures ReadKind(gv + "," + tail, kind) ==
              match ParseGroupVersion(gv) case Some((g, v)) => Some(GVK(g, v, kind)) case None => None
  {
    assert gv + "," + tail == gv + [','] + tail;
    IndexOfFirst(gv, ',', tail);
    assert (gv + "," + tail)[|gv|] == ',';
    assert (gv + "," + tail)[..|gv|] == gv;
  }

  /** An object's own kind never contains a slash. */
  lemma ObjectKindClean(o: Object)
    ensures '/' !in Gvk(o).group && '/' !in Gvk(o).version
    ensures ',' !in o.apiVersion ==> Clean(Gvk(o).group) && Clean(Gvk(o).version)
  {
    ParsedParts(o.apiVersion);
  }

  /** `apiVersion` names a kind: it parses, and the snapshot can file it. */
  predicate HasKind(o: Object) {
    ParseGroupVersion(o.apiVersion).Some? && ',' !in o.apiVersion
  }

  lemma RecordedAsIs(o: Object)
    requires HasKind(o)
    ensures ReadKind(KindString(Gvk(o)), o.kind) == Some(Gvk(o))
  {
    ObjectKindClean(o);
    KindRoundTrip(Gvk(o));
  }
}
