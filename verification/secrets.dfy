/** Hiding the values of a Secret, its live object and its last applied
    configuration, so that they can still be told apart. */
module Secrets {
  import opened Json

  /** An unstructured object: a map changed in place. */
  class Unstructured {
    var fields: Fields

    constructor (f: Fields)
      ensures fields == f
    {
      fields := f;
    }
  }

  /** Calls into libraries: decoding kubectl's annotation of a live object,
      normalising a Secret, formatting a value that is neither null nor a
      string, and writing the annotation back. */
  datatype Library = Library(
    lastApplied: Fields -> Option<Fields>, normalize: Fields -> Fields,
    format: Json -> string, annotate: (Fields, Fields) -> Fields)

  function ToString(lib: Library, v: Json): string {
    match v
    case Null => ""
    case Str(s) => s
    case _ => lib.format(v)
  }

  function Plus(n: nat): (s: string)
    ensures |s| == n && forall i :: 0 <= i < n ==> s[i] == '+'
  {
    if n == 0 then "" else Plus(n - 1) + "+"
  }

  /** The n-th replacement. */
  function Replacement(n: nat): string {
    Plus(8 + 4 * n)
  }

  lemma ReplacementsDiffer(a: nat, b: nat)
    ensures Replacement(a) == Replacement(b) <==> a == b
  {
  }

  // ------------------------------------------------------- one key, all objects

  type Values = seq<Option<string>>

  /** The values among the first `n`. */
  function Seen(values: Values, n: nat): set<string>
    requires n <= |values|
  {
    set i | 0 <= i < n && values[i].Some? :: values[i].value
  }

  function FirstOf(values: Values, v: string): (i: nat)
    requires Some(v) in values
    ensures i < |values| && values[i] == Some(v) && Some(v) !in values[..i]
  {
    if values[0] == Some(v) then 0
    else
      assert values == [values[0]] + values[1..];
      var i := 1 + FirstOf(values[1..], v);
      assert values[..i] == [values[0]] + values[1..][..i - 1];
      i
  }

  /** How many other values came before `v` did. */
  function Rank(values: Values, v: string): nat
    requires Some(v) in values
  {
    |Seen(values, FirstOf(values, v))|
  }

  lemma SeenBefore(values: Values, n: nat, v: string)
    requires n <= |values|
    ensures v in Seen(values, n) <==> Some(v) in values[..n]
  {
    if Some(v) in values[..n] {
      var i :| 0 <= i < n && values[..n][i] == Some(v);
      assert values[i] == Some(v);
    }
  }

  lemma FewerBefore(values: Values, a: string, b: string)
    requires Some(a) in values && Some(b) in values && FirstOf(values, a) < FirstOf(values, b)
    ensures Rank(values, a) < Rank(values, b)
  {
    var i, j := FirstOf(values, a), FirstOf(values, b);
    SeenBefore(values, i, a);
    assert Seen(values, i) + {a} <= Seen(values, j);
    Subset(Seen(values, i) + {a}, Seen(values, j));
  }

  lemma {:induction false} Subset<T>(a: set<T>, b: set<T>)
    requires a <= b
    ensures |a| <= |b|
    decreases a
  {
    if a != {} {
      var x :| x in a;
      Subset(a - {x}, b - {x});
    }
  }

  /** Two values rank the same only when they are the same. */
  lemma RankTellsApart(values: Values, a: string, b: string)
    requires Some(a) in values && Some(b) in values
    ensures Rank(values, a) == Rank(values, b) <==> a == b
  {
    if FirstOf(values, a) < FirstOf(values, b) {
      FewerBefore(values, a, b);
    } else if FirstOf(values, b) < FirstOf(values, a) {
      FewerBefore(values, b, a);
    }
  }

  // ------------------------------------------------------------ whole documents

  type Docs = seq<Option<Fields>>

  predicate HasData(d: Option<Fields>) {
    d.Some? && "data" in d.value && d.value["data"].Obj?
  }

  function Data(d: Option<Fields>): Fields {
    if HasData(d) then d.value["data"].fields else map[]
  }

  /** A document whose `data` is something else than a map. */
  predicate Malformed(d: Option<Fields>) {
    d.Some? && "data" in d.value && !d.value["data"].Obj?
  }

  function KeysOf(docs: Docs): set<string>
    decreases docs
  {
    if docs == [] then {} else Data(docs[0]).Keys + KeysOf(docs[1..])
  }

  function ValuesAt(lib: Library, docs: Docs, k: string): (vs: Values)
    ensures |vs| == |docs|
    ensures forall i :: 0 <= i < |docs| ==>
              vs[i] == if k in Data(docs[i]) then Some(ToString(lib, Data(docs[i])[k])) else None
  {
    seq(|docs|, i requires 0 <= i < |docs| =>
      if k in Data(docs[i]) then Some(ToString(lib, Data(docs[i])[k])) else None)
  }

  /** What replaces the value at `k` of the i-th document. */
  function Hiding(lib: Library, docs: Docs, i: nat, k: string): string
    requires i < |docs| && k in Data(docs[i])
  {
    var vs := ValuesAt(lib, docs, k);
    assert vs[i] in vs;
    Replacement(Rank(vs, ToString(lib, Data(docs[i])[k])))
  }

  function HiddenData(lib: Library, docs: Docs, i: nat, keys: set<string>): Fields
    requires i < |docs|
  {
    map k | k in Data(docs[i]) :: if k in keys then Str(Hiding(lib, docs, i, k)) else Data(docs[i])[k]
  }

  /** The i-th document with the values at `keys` replaced. */
  function Hidden(lib: Library, docs: Docs, i: nat, keys: set<string>): Fields
    requires i < |docs| && docs[i].Some?
  {
    if HasData(docs[i]) then docs[i].value["data" := Obj(HiddenData(lib, docs, i, keys))] else docs[i].value
  }

  lemma HiddenHas(lib: Library, docs: Docs, i: nat, keys: set<string>)
    requires i < |docs| && docs[i].Some?
    ensures Data(Some(Hidden(lib, docs, i, keys))) == HiddenData(lib, docs, i, keys)
    ensures HasData(Some(Hidden(lib, docs, i, keys))) <==> HasData(docs[i])
    ensures Malformed(Some(Hidden(lib, docs, i, keys))) <==> Malformed(docs[i])
  {
    if !HasData(docs[i]) {
      assert HiddenData(lib, docs, i, keys) == map[];
    }
  }

  /** Two documents get the same replacement at a key exactly when they had the
      same value there. */
  lemma HidingTellsApart(lib: Library, docs: Docs, i: nat, j: nat, k: string)
    requires i < |docs| && j < |docs| && k in Data(docs[i]) && k in Data(docs[j])
    ensures Hiding(lib, docs, i, k) == Hiding(lib, docs, j, k) <==>
              ToString(lib, Data(docs[i])[k]) == ToString(lib, Data(docs[j])[k])
  {
    hide ToString, Rank, Replacement;
    var vs := ValuesAt(lib, docs, k);
    assert vs[i] in vs && vs[j] in vs;
    RankTellsApart(vs, vs[i].value, vs[j].value);
    ReplacementsDiffer(Rank(vs, vs[i].value), Rank(vs, vs[j].value));
  }

  /** Hidden documents have the keys they had, and at each key two of them have
      the same replacement exactly when they had the same value. */
  lemma PatternPreserved(lib: Library, docs: Docs, i: nat, j: nat, k: string)
    requires i < |docs| && j < |docs| && k in Data(docs[i]) && k in Data(docs[j])
    ensures var di := Data(Some(Hidden(lib, docs, i, KeysOf(docs))));
            var dj := Data(Some(Hidden(lib, docs, j, KeysOf(docs))));
            && di.Keys == Data(docs[i]).Keys && k in di && k in dj && di[k].Str? && dj[k].Str?
            && (di[k] == dj[k] <==> ToString(lib, Data(docs[i])[k]) == ToString(lib, Data(docs[j])[k]))
  {
    hide ToString, Hiding, Hidden;
    DataKeysAmong(docs, i);
    HiddenHas(lib, docs, i, KeysOf(docs));
    HiddenHas(lib, docs, j, KeysOf(docs));
    HidingTellsApart(lib, docs, i, j, k);
  }

  /** How many different values at `k` the documents before the i-th have. */
  function Fresh(lib: Library, docs: Docs, i: nat, k: string): nat
    requires i <= |docs|
  {
    |Seen(ValuesAt(lib, docs, k), i)|
  }

  /** What is hidden is hidden: each value at a key of the data becomes a row of
      plus signs, eight for the first document that has the key, and else as many
      as for the first document with that value, four more for each different
      one before. Nothing else changes. */
  lemma HiddenInFull(lib: Library, docs: Docs, i: nat, k: string)
    requires i < |docs| && docs[i].Some?
    ensures var d := Hidden(lib, docs, i, KeysOf(docs));
            && d.Keys == docs[i].value.Keys
            && (forall f :: f in d && f != "data" ==> d[f] == docs[i].value[f])
            && (k in Data(docs[i]) ==>
                  && k in Data(Some(d)) && Data(Some(d))[k].Str?
                  && var s := Data(Some(d))[k].s;
                     && (forall n :: 0 <= n < |s| ==> s[n] == '+')
                     && (forall j :: 0 <= j <= i && FirstWith(lib, docs, j, i, k) ==>
                           |s| == 8 + 4 * Fresh(lib, docs, j, k)))
  {
    hide ToString, Hiding, Hidden, Fresh;
    DataKeysAmong(docs, i);
    HiddenHas(lib, docs, i, KeysOf(docs));
    HiddenKeepsOthers(lib, docs, i, KeysOf(docs));
    if k in Data(docs[i]) {
      HidingIsPluses(lib, docs, i, k);
    }
  }

  /** The j-th document is the first with the value of the i-th at `k`. */
  predicate FirstWith(lib: Library, docs: Docs, j: nat, i: nat, k: string)
    requires j <= i < |docs| && k in Data(docs[i])
  {
    && k in Data(docs[j]) && ToString(lib, Data(docs[j])[k]) == ToString(lib, Data(docs[i])[k])
    && forall n :: 0 <= n < j && k in Data(docs[n]) ==>
         ToString(lib, Data(docs[n])[k]) != ToString(lib, Data(docs[i])[k])
  }

  lemma HiddenKeepsOthers(lib: Library, docs: Docs, i: nat, keys: set<string>)
    requires i < |docs| && docs[i].Some?
    ensures var d := Hidden(lib, docs, i, keys);
            d.Keys == docs[i].value.Keys && forall f :: f in d && f != "data" ==> d[f] == docs[i].value[f]
  {
  }

  lemma HidingIsPluses(lib: Library, docs: Docs, i: nat, k: string)
    requires i < |docs| && k in Data(docs[i])
    ensures var s := Hiding(lib, docs, i, k);
            && (forall n :: 0 <= n < |s| ==> s[n] == '+')
            && forall j :: 0 <= j <= i && FirstWith(lib, docs, j, i, k) ==> |s| == 8 + 4 * Fresh(lib, docs, j, k)
  {
    hide ToString;
    var vs := ValuesAt(lib, docs, k);
    assert vs[i] in vs;
    var v := ToString(lib, Data(docs[i])[k]);
    forall j | 0 <= j <= i && FirstWith(lib, docs, j, i, k)
      ensures |Hiding(lib, docs, i, k)| == 8 + 4 * Fresh(lib, docs, j, k)
    {
      assert Some(v) !in vs[..j];
      FirstOfIs(vs, j, v);
    }
  }

  lemma {:induction false} DataKeysAmong(docs: Docs, i: nat)
    requires i < |docs|
    ensures Data(docs[i]).Keys <= KeysOf(docs)
    decreases docs
  {
    if i > 0 {
      DataKeysAmong(docs[1..], i - 1);
    }
  }

  lemma SeenOneMore(values: Values, i: nat)
    requires i < |values|
    ensures Seen(values, i + 1) == Seen(values, i) + if values[i].Some? then {values[i].value} else {}
  {
  }

  lemma NotSeenRank(values: Values, i: nat, v: string)
    requires i < |values| && values[i] == Some(v) && v !in Seen(values, i)
    ensures Some(v) in values && Rank(values, v) == |Seen(values, i)|
  {
    SeenBefore(values, i, v);
    FirstOfIs(values, i, v);
  }

  lemma {:induction false} FirstOfIs(values: Values, i: nat, v: string)
    requires i < |values| && values[i] == Some(v) && Some(v) !in values[..i]
    ensures FirstOf(values, v) == i
    decreases values
  {
    if i > 0 {
      assert values[0] == values[..i][0] && values[1..][..i - 1] == values[..i][1..];
      FirstOfIs(values[1..], i - 1, v);
    }
  }

  lemma OneMoreHidden(lib: Library, docs: Docs, i: nat, done: set<string>, k: string)
    requires i < |docs| && docs[i].Some?
    ensures var before := HiddenData(lib, docs, i, done);
            Hidden(lib, docs, i, done + {k}) ==
              if k in Data(docs[i])
              then Hidden(lib, docs, i, done)["data" := Obj(before[k := Str(Hiding(lib, docs, i, k))])]
              else Hidden(lib, docs, i, done)
  {
    hide Hiding;
    var before, after := HiddenData(lib, docs, i, done), HiddenData(lib, docs, i, done + {k});
    if k in Data(docs[i]) {
      assert after == before[k := Str(Hiding(lib, docs, i, k))];
    } else {
      assert after == before;
    }
  }

  // -------------------------------------------------------------- hiding in place

  /** The documents compared: target, live and last applied, normalised. */
  function Compared(lib: Library, target: Option<Fields>, live: Option<Fields>): (docs: Docs)
    ensures |docs| == 3
  {
    var orig := if live.Some? then lib.lastApplied(live.value) else None;
    [Normalized(lib, target), Normalized(lib, live), Normalized(lib, orig)]
  }

  function Normalized(lib: Library, d: Option<Fields>): Option<Fields> {
    if d.Some? then Some(lib.normalize(d.value)) else None
  }

  function HiddenAt(lib: Library, docs: Docs, i: nat, keys: set<string>): Option<Fields>
    requires i < |docs|
  {
    if docs[i].Some? then Some(Hidden(lib, docs, i, keys)) else None
  }

  /** What a reference leads to. */
  function Contents(o: Unstructured?): Option<Fields>
    reads o
  {
    if o == null then None else Some(o.fields)
  }

  /** Null counts as the empty string; what is neither null nor a string is
      formatted. */
  lemma TextsCompared(lib: Library, v: Json)
    ensures ToString(lib, Null) == "" && (v.Str? ==> ToString(lib, v) == v.s)
    ensures !v.Str? && !v.Null? ==> ToString(lib, v) == lib.format(v)
  {
  }

  /** The text at a key of the normalised document, if it has it. */
  function TextAt(lib: Library, d: Option<Fields>, k: string): Option<string> {
    if d.None? then None
    else
      var data := Data(Some(lib.normalize(d.value)));
      if k in data then Some(ToString(lib, data[k])) else None
  }

  /** What hiding the data of a target and its live object shows at a key: eight
      plus signs in the target; in the live object as many if it has the same
      text there or the target has none, else twelve; in the last applied one as
      many as in whichever has its text, else four more than in those two. */
  lemma HiddenTexts(lib: Library, target: Option<Fields>, live: Option<Fields>, k: string)
    ensures var docs := Compared(lib, target, live);
            var t, l := TextAt(lib, target, k), TextAt(lib, live, k);
            var o := TextAt(lib, if live.Some? then lib.lastApplied(live.value) else None, k);
            var inLive := if t.None? || t == l then 8 else 12;
            && (t.Some? ==> ShowsPluses(HiddenAt(lib, docs, 0, KeysOf(docs)), k, 8))
            && (l.Some? ==> ShowsPluses(HiddenAt(lib, docs, 1, KeysOf(docs)), k, inLive))
            && (o.Some? ==>
                  ShowsPluses(HiddenAt(lib, docs, 2, KeysOf(docs)), k,
                              if o == t then 8 else if o == l then inLive
                              else if l.Some? then inLive + 4 else if t.Some? then 12 else 8))
  {
    hide ToString, Hidden, KeysOf, Fresh;
    var docs := Compared(lib, target, live);
    var t, l := TextAt(lib, target, k), TextAt(lib, live, k);
    var o := TextAt(lib, if live.Some? then lib.lastApplied(live.value) else None, k);
    FreshCounts(lib, docs, k);
    if t.Some? {
      HiddenInFull(lib, docs, 0, k);
      assert FirstWith(lib, docs, 0, 0, k);
    }
    if l.Some? {
      HiddenInFull(lib, docs, 1, k);
      assert FirstWith(lib, docs, if t == l then 0 else 1, 1, k);
    }
    if o.Some? {
      HiddenInFull(lib, docs, 2, k);
      assert FirstWith(lib, docs, if o == t then 0 else if o == l then 1 else 2, 2, k);
    }
  }

  lemma FreshCounts(lib: Library, docs: Docs, k: string)
    requires |docs| == 3
    ensures Fresh(lib, docs, 0, k) == 0
    ensures Fresh(lib, docs, 1, k) == if k in Data(docs[0]) then 1 else 0
    ensures Fresh(lib, docs, 2, k) ==
              if k in Data(docs[0]) && k in Data(docs[1]) then
                if ToString(lib, Data(docs[0])[k]) == ToString(lib, Data(docs[1])[k]) then 1 else 2
              else if k in Data(docs[0]) || k in Data(docs[1]) then 1 else 0
  {
    hide ToString, Seen;
    var vs := ValuesAt(lib, docs, k);
    NoneSeen(vs);
    SeenOneMore(vs, 0);
    SeenOneMore(vs, 1);
  }

  lemma NoneSeen(values: Values)
    ensures Seen(values, 0) == {}
  {
  }

  predicate ShowsPluses(d: Option<Fields>, k: string, n: nat) {
    var data := Data(d);
    k in data && data[k].Str? && |data[k].s| == n && forall i :: 0 <= i < n ==> data[k].s[i] == '+'
  }

  /** The replacements handed out to the first `n` values. */
  predicate HandedOut(values: Values, n: nat, valToReplacement: map<string, string>)
    requires n <= |values|
  {
    && valToReplacement.Keys == Seen(values, n)
    && forall v :: v in valToReplacement ==> Some(v) in values && valToReplacement[v] == Replacement(Rank(values, v))
  }

  /** The replacement for the next value: that of an equal one, or a new one. */
  method Assign(ghost values: Values, ghost i: nat, val: string, valToReplacement: map<string, string>, next: nat)
    returns (replacement: string, valToReplacement': map<string, string>, next': nat)
    requires i < |values| && values[i] == Some(val)
    requires HandedOut(values, i, valToReplacement) && next == |Seen(values, i)|
    ensures HandedOut(values, i + 1, valToReplacement') && next' == |Seen(values, i + 1)|
    ensures Some(val) in values && replacement == Replacement(Rank(values, val))
  {
    hide Rank, Replacement, Seen;
    SeenOneMore(values, i);
    if val in valToReplacement {
      replacement := valToReplacement[val];
      valToReplacement', next' := valToReplacement, next;
    } else {
      NotSeenRank(values, i, val);
      replacement := Replacement(next);
      next' := next + 1;
      valToReplacement' := valToReplacement[val := replacement];
    }
  }

  lemma NoValue(values: Values, i: nat, valToReplacement: map<string, string>)
    requires i < |values| && values[i].None? && HandedOut(values, i, valToReplacement)
    ensures HandedOut(values, i + 1, valToReplacement) && Seen(values, i + 1) == Seen(values, i)
  {
    SeenOneMore(values, i);
  }

  /** Replaces the value at one key of one object, in place. */
  method HideIn(lib: Library, obj: Unstructured?, k: string, valToReplacement: map<string, string>, next: nat,
                ghost docs: Docs, ghost i: nat, ghost done: set<string>)
    returns (ok: bool, valToReplacement': map<string, string>, next': nat)
    requires i < |docs| && k !in done && Contents(obj) == HiddenAt(lib, docs, i, done)
    requires HandedOut(ValuesAt(lib, docs, k), i, valToReplacement) && next == |Seen(ValuesAt(lib, docs, k), i)|
    modifies obj
    ensures ok <==> !Malformed(docs[i])
    ensures ok ==> Contents(obj) == HiddenAt(lib, docs, i, done + {k})
    ensures ok ==>
              && HandedOut(ValuesAt(lib, docs, k), i + 1, valToReplacement')
              && next' == |Seen(ValuesAt(lib, docs, k), i + 1)|
  {
    hide Rank, Replacement, ToString, Hidden, Seen, HandedOut, ValuesAt;
    ghost var values := ValuesAt(lib, docs, k);
    valToReplacement', next' := valToReplacement, next;
    if obj == null {
      NoValue(values, i, valToReplacement);
      return true, valToReplacement, next;
    }
    HiddenHas(lib, docs, i, done);
    OneMoreHidden(lib, docs, i, done, k);
    var data: Fields := map[];
    if "data" in obj.fields {
      if !obj.fields["data"].Obj? {
        return false, valToReplacement, next;
      }
      data := obj.fields["data"].fields;
    }
    ok := true;
    if k in data {
      var replacement: string;
      replacement, valToReplacement', next' := Assign(values, i, ToString(lib, data[k]), valToReplacement, next);
      obj.fields := obj.fields["data" := Obj(data[k := Str(replacement)])];
    } else {
      NoValue(values, i, valToReplacement);
    }
  }

  /** Every reference leads to an object of its own, or to none. */
  predicate Unaliased(objs: seq<Unstructured?>) {
    forall i, j :: 0 <= i < j < |objs| && objs[i] != null ==> objs[i] != objs[j]
  }

  lemma OwnObjects(objs: seq<Unstructured?>, i: nat, j: nat)
    requires Unaliased(objs) && i < j < |objs| && objs[i] != null
    ensures objs[i] != objs[j]
  {
  }

  ghost predicate Holding(lib: Library, objs: seq<Unstructured?>, docs: Docs, keys: set<string>)
    reads objs
  {
    |objs| == |docs| && forall i :: 0 <= i < |objs| ==> Contents(objs[i]) == HiddenAt(lib, docs, i, keys)
  }

  /** Replaces the values at one key, object by object. */
  method HideKey(lib: Library, objs: seq<Unstructured?>, k: string, ghost docs: Docs, ghost done: set<string>)
    returns (ok: bool)
    requires Unaliased(objs) && Holding(lib, objs, docs, done) && k !in done
    modifies objs
    ensures ok <==> forall i :: 0 <= i < |docs| ==> !Malformed(docs[i])
    ensures ok ==> Holding(lib, objs, docs, done + {k})
  {
    hide HiddenAt, HandedOut, Malformed, Seen, ValuesAt;
    ghost var values := ValuesAt(lib, docs, k);
    var next: nat, valToReplacement: map<string, string> := 0, map[];
    NothingSeen(values);
    for i := 0 to |objs|
      invariant forall j :: 0 <= j < i ==>
                Contents(objs[j]) == HiddenAt(lib, docs, j, done + {k}) && !Malformed(docs[j])
      invariant forall j :: i <= j < |objs| ==> Contents(objs[j]) == HiddenAt(lib, docs, j, done)
      invariant HandedOut(values, i, valToReplacement) && next == |Seen(values, i)|
    {
      label Before:
      ok, valToReplacement, next := HideIn(lib, objs[i], k, valToReplacement, next, docs, i, done);
      if !ok {
        return;
      }
      forall j | 0 <= j < |objs| && j != i ensures Contents(objs[j]) == old@Before(Contents(objs[j])) {
        assert objs[j] == null || objs[j] != objs[i];
      }
    }
    ok := true;
  }

  lemma NothingSeen(values: Values)
    ensures HandedOut(values, 0, map[]) && |Seen(values, 0)| == 0
  {
  }

  /** The keys one by one, in any order. */
  method HideKeys(lib: Library, objs: seq<Unstructured?>, keys: set<string>, ghost docs: Docs) returns (ok: bool)
    requires Unaliased(objs) && Holding(lib, objs, docs, {})
    modifies objs
    ensures ok <==> (keys != {} ==> forall i :: 0 <= i < |docs| ==> !Malformed(docs[i]))
    ensures ok ==> Holding(lib, objs, docs, keys)
  {
    hide Holding, Malformed, Unaliased;
    ghost var done: set<string> := {};
    var rest := keys;
    while rest != {}
      invariant rest <= keys && done == keys - rest
      invariant Holding(lib, objs, docs, done)
      invariant rest != keys ==> forall i :: 0 <= i < |docs| ==> !Malformed(docs[i])
      decreases rest
    {
      var k :| k in rest;
      rest := rest - {k};
      ok := HideKey(lib, objs, k, docs, done);
      if !ok {
        return;
      }
      done := done + {k};
    }
    assert done == keys;
    ok := true;
  }

  method DeepCopy(obj: Unstructured?) returns (copy: Unstructured?)
    ensures Contents(copy) == Contents(obj) && (copy != null ==> fresh(copy))
  {
    if obj == null {
      return null;
    }
    copy := new Unstructured(obj.fields);
  }

  /** Copies of the two objects, and the last applied one. */
  method CopyAll(lib: Library, target: Unstructured?, live: Unstructured?) returns (objs: seq<Unstructured?>)
    ensures |objs| == 3 && Unaliased(objs) && forall i :: 0 <= i < 3 && objs[i] != null ==> fresh(objs[i])
    ensures var docs := Compared(lib, Contents(target), Contents(live));
            forall i :: 0 <= i < 3 ==> docs[i] == Normalized(lib, Contents(objs[i]))
  {
    var orig: Unstructured? := null;
    if live != null && lib.lastApplied(live.fields).Some? {
      orig := new Unstructured(lib.lastApplied(live.fields).value);
    }
    var live' := DeepCopy(live);
    var target' := DeepCopy(target);
    objs := [target', live', orig];
  }

  /** `HideSecretData`. Neither input is modified. */
  method HideSecretData(lib: Library, target: Unstructured?, live: Unstructured?)
    returns (ok: bool, target': Unstructured?, live': Unstructured?)
    ensures var docs := Compared(lib, Contents(target), Contents(live));
            && (ok <==> (KeysOf(docs) != {} ==> forall i :: 0 <= i < 3 ==> !Malformed(docs[i])))
            && (ok ==>
                  && Contents(target') == HiddenAt(lib, docs, 0, KeysOf(docs))
                  && var l, o := HiddenAt(lib, docs, 1, KeysOf(docs)), HiddenAt(lib, docs, 2, KeysOf(docs));
                     Contents(live') == if l.Some? && o.Some? then Some(lib.annotate(l.value, o.value)) else l)
    ensures !ok ==> target' == null && live' == null
    ensures target' != null ==> fresh(target')
    ensures live' != null ==> fresh(live')
  {
    ghost var docs := Compared(lib, Contents(target), Contents(live));
    hide HiddenAt, Malformed, KeysOf, Unaliased, Compared;
    var objs := CopyAll(lib, target, live);
    target', live' := objs[0], objs[1];
    var keys := NormalizeAll(lib, objs, docs);
    ok := HideKeys(lib, objs, keys, docs);
    if !ok {
      return false, null, null;
    }
    assert Contents(live') == HiddenAt(lib, docs, 1, keys) && Contents(objs[2]) == HiddenAt(lib, docs, 2, keys);
    if live' != null && objs[2] != null {
      OwnObjects(objs, 1, 2);
      if target' != null {
        OwnObjects(objs, 0, 1);
      }
      live'.fields := lib.annotate(live'.fields, objs[2].fields);
    }
  }

  /** Normalises the copies in place and collects their keys. */
  method NormalizeAll(lib: Library, objs: seq<Unstructured?>, ghost docs: Docs) returns (keys: set<string>)
    requires Unaliased(objs) && |objs| == |docs|
    requires forall i :: 0 <= i < |objs| ==> docs[i] == Normalized(lib, Contents(objs[i]))
    modifies objs
    ensures keys == KeysOf(docs) && Holding(lib, objs, docs, {})
  {
    keys := {};
    for i := 0 to |objs|
      invariant keys + KeysOf(docs[i..]) == KeysOf(docs)
      invariant forall j :: 0 <= j < |objs| ==>
                docs[j] == if j < i then Contents(objs[j]) else Normalized(lib, Contents(objs[j]))
    {
      var obj := objs[i];
      if obj != null {
        obj.fields := lib.normalize(obj.fields);
        if "data" in obj.fields && obj.fields["data"].Obj? {
          keys := keys + obj.fields["data"].fields.Keys;
        }
      }
      assert docs[i..][1..] == docs[i + 1..];
    }
    forall i | 0 <= i < |objs| ensures Contents(objs[i]) == HiddenAt(lib, docs, i, {}) {
      NothingHidden(lib, docs, i);
    }
  }

  lemma NothingHidden(lib: Library, docs: Docs, i: nat)
    requires i < |docs|
    ensures HiddenAt(lib, docs, i, {}) == docs[i]
  {
    assert HiddenData(lib, docs, i, {}) == Data(docs[i]);
    if HasData(docs[i]) {
      assert docs[i].value["data" := docs[i].value["data"]] == docs[i].value;
    }
  }
}
