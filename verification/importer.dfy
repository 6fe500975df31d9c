/** Jsonnet imports: an ordered search over candidate URLs, behind an in-memory
    cache and one on disk. */
module Importer {
  import opened Json
  import opened Text

  datatype Reply = Body(text: string) | NotFound | Failing

  /** How an import ends; `foundAt` is the URL that served it. */
  datatype Result = Found(contents: string, foundAt: string) | Nowhere | Broken | BadPath

  const INTERNAL := "internal://"
  const LIB := "internal:///lib/"
  const KUBECFG := "kubecfg.libsonnet"

  predicate IsHttp(url: string) {
    HasPrefix(url, "http://") || HasPrefix(url, "https://")
  }

  predicate IsInternal(url: string) {
    HasPrefix(url, INTERNAL) && '\n' !in url[|INTERNAL|..]
  }

  /** What follows `internal://`, and one more slash if there is one. */
  function InternalPath(url: string): string
    requires IsInternal(url)
  {
    var rest := url[|INTERNAL|..];
    if rest != "" && rest[0] == '/' then rest[1..] else rest
  }

  /** `strings.TrimLeft`: the second argument is a set of characters. */
  function TrimLeft(s: string, cut: string): (t: string)
    ensures t == "" || t[0] !in cut
  {
    if s == "" || s[0] !in cut then s else TrimLeft(s[1..], cut)
  }

  /** Where an internal URL is looked up. */
  function Rewritten(url: string): string
    requires IsInternal(url)
  {
    var u := LIB + TrimLeft(InternalPath(url), "lib/");
    if HasSuffix(u, KUBECFG) then LIB + KUBECFG else u
  }

  /** The URL that is requested for `url`. */
  function Requested(url: string): string {
    if IsInternal(url) then Rewritten(url) else url
  }

  lemma HttpIsNotInternal(url: string)
    ensures !(IsHttp(url) && IsInternal(url))
  {
    if IsHttp(url) {
      assert url[0] == 'h';
    }
    if IsInternal(url) {
      assert url[0] == 'i';
    }
  }

  lemma {:induction false} TrimmedAsIs(s: string, cut: string)
    ensures |TrimLeft(s, cut)| <= |s|
    ensures TrimLeft(s, cut) == s <==> s == "" || s[0] !in cut
    decreases s
  {
    if s != "" && s[0] in cut {
      TrimmedAsIs(s[1..], cut);
    }
  }

  lemma SlashFreeSuffix(pre: string, s: string, suffix: string)
    requires '/' !in suffix && pre != "" && pre[|pre| - 1] == '/'
    ensures HasSuffix(pre + s, suffix) <==> HasSuffix(s, suffix)
  {
    var u := pre + s;
    if |suffix| <= |s| {
      assert u[|u| - |suffix|..] == s[|s| - |suffix|..];
    } else if |suffix| <= |u| {
      var at := |pre| - 1 - (|u| - |suffix|);
      assert u[|u| - |suffix|..][at] == '/';
      assert '/' in u[|u| - |suffix|..];
    }
  }

  /** A path under the internal root is looked up as it is exactly when it does
      not begin with a slash or a letter of "lib" and is not another path to
      kubecfg: the prefix is trimmed as a set of characters. */
  lemma InternalLookupExact(p: string)
    requires '\n' !in p
    ensures Requested("internal:///" + p) == LIB + p <==>
              (p == "" || p[0] !in "lib/") && (HasSuffix(p, KUBECFG) ==> p == KUBECFG)
  {
    var url := "internal:///" + p;
    assert url[|INTERNAL|..] == "/" + p && url[..|INTERNAL|] == INTERNAL;
    assert InternalPath(url) == p;
    var t := TrimLeft(p, "lib/");
    TrimmedAsIs(p, "lib/");
    SlashFreeSuffix(LIB, t, KUBECFG);
    assert LIB + t == LIB + p <==> t == p by {
      assert (LIB + t)[|LIB|..] == t && (LIB + p)[|LIB|..] == p;
    }
    assert LIB + KUBECFG == LIB + p <==> p == KUBECFG by {
      assert (LIB + KUBECFG)[|LIB|..] == KUBECFG && (LIB + p)[|LIB|..] == p;
    }
    if HasSuffix(t, KUBECFG) && p == KUBECFG {
      assert p[0] == 'k';
    }
  }

  /** A URL with a line break is not an internal one, whatever it begins with. */
  lemma InternalIsOneLine(p: string)
    requires '\n' in p
    ensures Requested(INTERNAL + p) == INTERNAL + p
  {
    assert (INTERNAL + p)[|INTERNAL|..] == p;
  }

  /** A library file whose name begins with one of those letters is missed. */
  lemma InternalLookupMisses()
    ensures Requested("internal:///" + "base.libsonnet") != LIB + "base.libsonnet"
  {
    InternalLookupExact("base.libsonnet");
  }

  // ------------------------------------------------------------- the disk cache

  /** `local` names the file for an http URL, the scheme dropped; no directory
      disables the cache. */
  datatype CacheDir = Disabled | Directory(local: string -> string)

  /** Whether the file of a request can be read, and written. */
  datatype Io = Io(readable: bool, writable: bool)

  function CachedOnDisk(dir: CacheDir, disk: map<string, string>, url: string, io: Io): Option<string> {
    if dir.Directory? && IsHttp(url) && io.readable && dir.local(url) in disk then Some(disk[dir.local(url)]) else None
  }

  function Obtained(dir: CacheDir, disk: map<string, string>, url: string, remote: string -> Reply, io: Io): Reply {
    match CachedOnDisk(dir, disk, url, io)
    case Some(text) => Body(text)
    case None => remote(Requested(url))
  }

  function DiskAfter(dir: CacheDir, disk: map<string, string>, url: string, remote: string -> Reply,
                     io: Io): map<string, string> {
    if dir.Directory? && IsHttp(url) && io.writable && CachedOnDisk(dir, disk, url, io).None? && remote(url).Body? then
      disk[dir.local(url) := remote(url).text]
    else disk
  }

  class HttpCache {
    const dir: CacheDir
    var disk: map<string, string>

    constructor (dir: CacheDir, disk: map<string, string>)
      ensures this.dir == dir && this.disk == disk
    {
      this.dir, this.disk := dir, disk;
    }

    method TryLocalCache(url: string, io: Io) returns (contents: Option<string>)
      requires IsHttp(url)
      ensures contents == CachedOnDisk(dir, disk, url, io)
    {
      if dir.Disabled? {
        return None;
      }
      var localPath := dir.local(url);
      if io.readable && localPath in disk {
        return Some(disk[localPath]);
      }
      return None;
    }

    method WriteToCache(url: string, contents: string, io: Io)
      modifies this
      ensures disk == if dir.Directory? && io.writable then old(disk)[dir.local(url) := contents] else old(disk)
    {
      if dir.Directory? && io.writable {
        disk := disk[dir.local(url) := contents];
      }
    }

    method Get(url: string, remote: string -> Reply, io: Io) returns (r: Reply)
      modifies this
      ensures r == Obtained(dir, old(disk), url, remote, io)
      ensures disk == DiskAfter(dir, old(disk), url, remote, io)
    {
      var isHttp, isInternal := IsHttp(url), IsInternal(url);
      HttpIsNotInternal(url);
      var u := url;
      if isHttp {
        var contents := TryLocalCache(u, io);
        if contents.Some? {
          return Body(contents.value);
        }
      }
      if isInternal {
        u := LIB + TrimLeft(InternalPath(url), "lib/");
        if HasSuffix(u, KUBECFG) {
          u := LIB + KUBECFG;
        }
      }
      r := remote(u);
      if r.Body? && isHttp {
        WriteToCache(u, r.text, io);
      }
    }
  }

  // ------------------------------------------------------------------ importing

  /** The URL library: parsing a path, whether a URL is absolute, and resolving
      a relative one. */
  datatype Urls = Urls(parse: string -> Option<string>, isAbs: string -> bool, resolve: (string, string) -> string)

  function ResolvedAll(urls: Urls, base: seq<string>, path: string): seq<string> {
    seq(|base|, i requires 0 <= i < |base| => urls.resolve(base[i], path))
  }

  /** Where to look, in this order. */
  function Candidates(urls: Urls, base: seq<string>, importedFrom: string, importedPath: string): Option<seq<string>> {
    match urls.parse(importedPath)
    case None => None
    case Some(path) =>
      if urls.isAbs(path) then Some([path])
      else match urls.parse(importedFrom)
           case None => None
           case Some(from) => Some([urls.resolve(from, path)] + ResolvedAll(urls, base, path))
  }

  /** The search through the caches; `remote(i)` answers the i-th candidate. */
  function Search(dir: CacheDir, disk: map<string, string>, cache: map<string, string>, candidates: seq<string>,
                  remote: nat -> string -> Reply, io: nat -> Io, i: nat): Result
    requires i <= |candidates|
    decreases |candidates| - i
  {
    if i == |candidates| then Nowhere
    else if candidates[i] in cache then Found(cache[candidates[i]], candidates[i])
    else
      match Obtained(dir, disk, candidates[i], remote(i), io(i))
      case Body(text) => Found(text, candidates[i])
      case NotFound => Search(dir, disk, cache, candidates, remote, io, i + 1)
      case Failing => Broken
  }

  /** The files after that search: it writes at most one. */
  function SearchDisk(dir: CacheDir, disk: map<string, string>, cache: map<string, string>, candidates: seq<string>,
                      remote: nat -> string -> Reply, io: nat -> Io, i: nat): map<string, string>
    requires i <= |candidates|
    decreases |candidates| - i
  {
    if i == |candidates| || candidates[i] in cache then disk
    else
      match Obtained(dir, disk, candidates[i], remote(i), io(i))
      case Body(_) => DiskAfter(dir, disk, candidates[i], remote(i), io(i))
      case NotFound => SearchDisk(dir, disk, cache, candidates, remote, io, i + 1)
      case Failing => disk
  }

  /** Only a body is written. */
  lemma DiskUnlessBody(dir: CacheDir, disk: map<string, string>, url: string, remote: string -> Reply, io: Io)
    requires !Obtained(dir, disk, url, remote, io).Body?
    ensures DiskAfter(dir, disk, url, remote, io) == disk
  {
    HttpIsNotInternal(url);
  }

  /** The search without any cache. */
  function FirstMatch(remote: string -> Reply, candidates: seq<string>): Result
    decreases candidates
  {
    if candidates == [] then Nowhere
    else
      match remote(Requested(candidates[0]))
      case Body(text) => Found(text, candidates[0])
      case NotFound => FirstMatch(remote, candidates[1..])
      case Failing => Broken
  }

  /** The i-th candidate is the first that is not missing, and `r` its outcome. */
  predicate EndsAt(remote: string -> Reply, candidates: seq<string>, i: nat, r: Result)
    requires i < |candidates|
  {
    var reply := remote(Requested(candidates[i]));
    && !reply.NotFound? && r == (if reply.Body? then Found(reply.text, candidates[i]) else Broken)
    && forall j :: 0 <= j < i ==> remote(Requested(candidates[j])).NotFound?
  }

  /** The first candidate that is not missing decides, and only if all are the
      import is. */
  lemma {:induction false} FirstMatchExactly(remote: string -> Reply, candidates: seq<string>)
    ensures var r := FirstMatch(remote, candidates);
            && (r.Nowhere? <==> forall j :: 0 <= j < |candidates| ==> remote(Requested(candidates[j])).NotFound?)
            && (!r.Nowhere? ==> exists i :: 0 <= i < |candidates| && EndsAt(remote, candidates, i, r))
    decreases candidates
  {
    hide Requested;
    if candidates != [] {
      var rest, r := candidates[1..], FirstMatch(remote, candidates);
      FirstMatchExactly(remote, rest);
      assert candidates == [candidates[0]] + rest;
      if !remote(Requested(candidates[0])).NotFound? {
        assert EndsAt(remote, candidates, 0, r);
      } else if !r.Nowhere? {
        var i :| 0 <= i < |rest| && EndsAt(remote, rest, i, r);
        assert EndsAt(remote, candidates, i + 1, r);
      }
    }
  }

  /** A relative path is looked for next to the importing file first, then in
      each search URL in order; an absolute one only where it says. */
  lemma CandidatesInOrder(urls: Urls, base: seq<string>, importedFrom: string, importedPath: string)
    ensures var cs, path, from := Candidates(urls, base, importedFrom, importedPath), urls.parse(importedPath),
                                  urls.parse(importedFrom);
            && (cs.None? <==> path.None? || (!urls.isAbs(path.value) && from.None?))
            && (cs.Some? ==>
                  if urls.isAbs(path.value) then cs.value == [path.value]
                  else
                    && |cs.value| == 1 + |base| && cs.value[0] == urls.resolve(from.value, path.value)
                    && forall i :: 0 <= i < |base| ==> cs.value[i + 1] == urls.resolve(base[i], path.value))
  {
  }

  /** What was got over http and could be written and read again is served from
      then on, whatever the remote answers; nothing else is. */
  lemma ServedFromDisk(dir: CacheDir, disk: map<string, string>, url: string, remote: string -> Reply, io: Io,
                       again: string -> Reply, io': Io)
    requires dir.Directory? ==> dir.local(url) !in disk
    ensures var disk' := DiskAfter(dir, disk, url, remote, io);
            && (dir.Directory? && IsHttp(url) && remote(url).Body? && io.writable && io'.readable ==>
                  Obtained(dir, disk', url, again, io') == remote(url))
            && (!(dir.Directory? && IsHttp(url) && remote(url).Body? && io.writable) || !io'.readable ==>
                  Obtained(dir, disk', url, again, io') == again(Requested(url)))
  {
    HttpIsNotInternal(url);
  }

  /** http URLs with one file have one reply. */
  ghost predicate SharesContents(dir: CacheDir, remote: string -> Reply) {
    forall u, v :: dir.Directory? && IsHttp(u) && IsHttp(v) && dir.local(u) == dir.local(v) ==> remote(u) == remote(v)
  }

  /** The files hold what the remote serves. */
  ghost predicate FaithfulDisk(dir: CacheDir, disk: map<string, string>, remote: string -> Reply) {
    forall u :: dir.Directory? && IsHttp(u) && dir.local(u) in disk ==> remote(u) == Body(disk[dir.local(u)])
  }

  ghost predicate FaithfulCache(cache: map<string, string>, remote: string -> Reply) {
    forall u :: u in cache ==> remote(Requested(u)) == Body(cache[u])
  }

  lemma ObtainedFaithfully(dir: CacheDir, disk: map<string, string>, url: string, remote: string -> Reply, io: Io)
    requires SharesContents(dir, remote) && FaithfulDisk(dir, disk, remote)
    ensures Obtained(dir, disk, url, remote, io) == remote(Requested(url))
    ensures FaithfulDisk(dir, DiskAfter(dir, disk, url, remote, io), remote)
  {
    HttpIsNotInternal(url);
  }

  /** With a remote that never changes, the caches are not to be noticed: the
      result is that of the search without them, and they stay faithful. */
  lemma {:induction false} SearchIsFirstMatch(dir: CacheDir, disk: map<string, string>, cache: map<string, string>,
                                              candidates: seq<string>, remote: string -> Reply,
                                              remotes: nat -> string -> Reply, io: nat -> Io, i: nat)
    requires i <= |candidates| && forall n :: remotes(n) == remote
    requires SharesContents(dir, remote) && FaithfulDisk(dir, disk, remote) && FaithfulCache(cache, remote)
    ensures var r := Search(dir, disk, cache, candidates, remotes, io, i);
            && r == FirstMatch(remote, candidates[i..])
            && FaithfulDisk(dir, SearchDisk(dir, disk, cache, candidates, remotes, io, i), remote)
            && (r.Found? ==> FaithfulCache(cache[r.foundAt := r.contents], remote))
    decreases |candidates| - i
  {
    if i < |candidates| {
      assert candidates[i..][0] == candidates[i] && candidates[i..][1..] == candidates[i + 1..];
      assert remotes(i) == remote;
      ObtainedFaithfully(dir, disk, candidates[i], remote, io(i));
      SearchIsFirstMatch(dir, disk, cache, candidates, remote, remotes, io, i + 1);
    }
  }

  /** One import as seen from outside: the caches before and after. */
  datatype Step = Step(before: map<string, string>, result: Result, after: map<string, string>)

  /** What `Import` does to the in-memory cache, and the part it plays. */
  predicate Remembers(s: Step) {
    && s.after == (if s.result.Found? then s.before[s.result.foundAt := s.result.contents] else s.before)
    && (s.result.Found? && s.result.foundAt in s.before ==> s.result.contents == s.before[s.result.foundAt])
  }

  /** Whatever the search finds in the cache it takes from there. */
  lemma {:induction false} SearchRemembers(dir: CacheDir, disk: map<string, string>, cache: map<string, string>,
                                           candidates: seq<string>,
                                           remote: nat -> string -> Reply, io: nat -> Io, i: nat)
    requires i <= |candidates|
    ensures var r := Search(dir, disk, cache, candidates, remote, io, i);
            r.Found? && r.foundAt in cache ==> r.contents == cache[r.foundAt]
    decreases |candidates| - i
  {
    if i < |candidates| {
      SearchRemembers(dir, disk, cache, candidates, remote, io, i + 1);
    }
  }

  /** Over any sequence of imports, whatever the remote answers, one `foundAt`
      always comes with the same contents. */
  lemma {:induction false} FoundIsForever(steps: seq<Step>, i: nat, j: nat)
    requires i < j < |steps|
    requires forall n :: 0 <= n < |steps| ==> Remembers(steps[n])
    requires forall n :: 0 <= n < |steps| - 1 ==> steps[n].after == steps[n + 1].before
    requires steps[i].result.Found?
    ensures steps[i].result.foundAt in steps[j].before
            && steps[j].before[steps[i].result.foundAt] == steps[i].result.contents
    ensures steps[j].result.Found? && steps[j].result.foundAt == steps[i].result.foundAt ==>
              steps[j].result.contents == steps[i].result.contents
    decreases j
  {
    assert Remembers(steps[i]) && Remembers(steps[j]) && Remembers(steps[j - 1]);
    assert steps[j - 1].after == steps[j - 1 + 1].before;
    if i < j - 1 {
      FoundIsForever(steps, i, j - 1);
    }
  }

  class UniversalImporter {
    const baseSearchUrls: seq<string>
    const urls: Urls
    const httpCache: HttpCache
    var cache: map<string, string>

    constructor (baseSearchUrls: seq<string>, urls: Urls, httpCache: HttpCache)
      ensures this.baseSearchUrls == baseSearchUrls && this.urls == urls && this.httpCache == httpCache
              && cache == map[]
    {
      this.baseSearchUrls, this.urls, this.httpCache, cache := baseSearchUrls, urls, httpCache, map[];
    }

    method ExpandImportToCandidateUrls(importedFrom: string, importedPath: string)
      returns (candidates: Option<seq<string>>)
      ensures candidates == Candidates(urls, baseSearchUrls, importedFrom, importedPath)
    {
      var path := urls.parse(importedPath);
      if path.None? {
        return None;
      }
      if urls.isAbs(path.value) {
        return Some([path.value]);
      }
      var dir := urls.parse(importedFrom);
      if dir.None? {
        return None;
      }
      var candidateUrls := [urls.resolve(dir.value, path.value)];
      for i := 0 to |baseSearchUrls|
        invariant |candidateUrls| == i + 1 && candidateUrls[0] == urls.resolve(dir.value, path.value)
        invariant forall j :: 0 <= j < i ==> candidateUrls[j + 1] == urls.resolve(baseSearchUrls[j], path.value)
      {
        candidateUrls := candidateUrls + [urls.resolve(baseSearchUrls[i], path.value)];
      }
      assert candidateUrls[1..] == ResolvedAll(urls, baseSearchUrls, path.value);
      assert candidateUrls == [candidateUrls[0]] + candidateUrls[1..];
      return Some(candidateUrls);
    }

    method Import(importedFrom: string, importedPath: string, remote: nat -> string -> Reply, io: nat -> Io)
      returns (r: Result)
      modifies this`cache, httpCache
      ensures match Candidates(urls, baseSearchUrls, importedFrom, importedPath)
              case None => r == BadPath && httpCache.disk == old(httpCache.disk)
              case Some(cs) =>
                && r == Search(httpCache.dir, old(httpCache.disk), old(cache), cs, remote, io, 0)
                && httpCache.disk == SearchDisk(httpCache.dir, old(httpCache.disk), old(cache), cs, remote, io, 0)
      ensures Remembers(Step(old(cache), r, cache))
    {
      hide Obtained, DiskAfter, Candidates;
      var candidates := ExpandImportToCandidateUrls(importedFrom, importedPath);
      if candidates.None? {
        return BadPath;
      }
      var cs := candidates.value;
      ghost var dir, disk, known := httpCache.dir, httpCache.disk, cache;
      SearchRemembers(dir, disk, known, cs, remote, io, 0);
      for i := 0 to |cs|
        invariant cache == known && httpCache.disk == disk
        invariant Search(dir, disk, known, cs, remote, io, 0) == Search(dir, disk, known, cs, remote, io, i)
        invariant SearchDisk(dir, disk, known, cs, remote, io, 0) == SearchDisk(dir, disk, known, cs, remote, io, i)
      {
        var foundAt := cs[i];
        if foundAt in cache {
          return Found(cache[foundAt], foundAt);
        }
        var importedData := httpCache.Get(foundAt, remote(i), io(i));
        if importedData.Body? {
          cache := cache[foundAt := importedData.text];
          return Found(importedData.text, foundAt);
        }
        DiskUnlessBody(dir, disk, foundAt, remote(i), io(i));
        if importedData != NotFound {
          return Broken;
        }
      }
      return Nowhere;
    }
  }
}
