/**
 * The eager HTTP/2 example server: at start-up it opens every file under
 * `<cwd>/dist` and caches its descriptor and headers in `fdMap`; a request
 * for a cached path is answered from the cache, and `/index.html` first
 * pushes every other cached file (section 8.2 of RFC 7540).
 */
module VanillaServer {
  import opened Common
  import opened Paths
  import opened FileSystem
  import opened Http
  import opened FileServer

  /** The directory below the working directory that is served. */
  const Dist: string := "dist"

  const JsType: string := "application/javascript; charset=utf-8"
  const HtmlType: string := "text/html; charset=utf-8"

  // ---------------------------------------------------------------------
  // Content types
  // ---------------------------------------------------------------------

  /**
   * For a suffix that starts with its only dot, the text from the last dot
   * of `s` is that suffix exactly when `s` ends with it.
   */
  lemma ExtensionIs(s: string, suffix: string)
    requires |suffix| >= 1 && suffix[0] == '.' && '.' !in suffix[1..]
    ensures (LastIndexOf(s, '.').Some? && s[LastIndexOf(s, '.').value..] == suffix) <==> EndsWith(s, suffix)
  {
    if EndsWith(s, suffix) {
      var i := |s| - |suffix|;
      assert s[i..] == suffix;
      assert s[i] == '.';
      forall j | i < j < |s|
        ensures s[j] != '.'
      {
        assert s[j] == suffix[1..][j - i - 1];
      }
      var l := LastIndexOf(s, '.');
      assert l.Some? by {
        assert s[i] in s;
      }
      assert l.value == i;
    }
  }

  /**
   * `getContentType`: the text from the last `.` decides; only `.js` and
   * `.html` are known, anything else (or no dot) gives `undefined`.
   */
  function GetContentType(path: string): Option<string>
  {
    match LastIndexOf(path, '.')
    case None => None
    case Some(i) =>
      if path[i..] == ".js" then Some(JsType)
      else if path[i..] == ".html" then Some(HtmlType)
      else None
  }

  /** A path gets the script type exactly when it ends with `.js`, the page type exactly when it ends with `.html`, and no type otherwise. */
  lemma GetContentTypeSpec(path: string)
    ensures GetContentType(path) == Some(JsType) <==> EndsWith(path, ".js")
    ensures GetContentType(path) == Some(HtmlType) <==> EndsWith(path, ".html")
    ensures GetContentType(path).None? <==> !EndsWith(path, ".js") && !EndsWith(path, ".html")
  {
    ExtensionIs(path, ".js");
    ExtensionIs(path, ".html");
  }

  // ---------------------------------------------------------------------
  // The descriptor cache
  // ---------------------------------------------------------------------

  /** One `fdMap` value: the descriptor opened on the file and its headers. */
  datatype CachedFile = CachedFile(fd: nat, headers: Headers)

  /** A JavaScript `Map` from joined paths, as its entries in insertion order. */
  type FdMap = seq<(Path, CachedFile)>

  function Keys(m: FdMap): (r: seq<Path>)
    ensures |r| == |m|
    ensures forall k :: 0 <= k < |m| ==> r[k] == m[k].0
  {
    if m == [] then [] else [m[0].0] + Keys(m[1..])
  }

  /** `Map.prototype.get`. */
  function Get(m: FdMap, key: Path): (r: Option<CachedFile>)
    ensures r.None? <==> key !in Keys(m)
    ensures r.Some? ==> (key, r.value) in m
  {
    if m == [] then None
    else if m[0].0 == key then Some(m[0].1)
    else Get(m[1..], key)
  }

  /** `fdMap.get(path)` with the joined text: the entry whose key has that text. */
  function GetText(m: FdMap, text: string): (r: Option<CachedFile>)
    ensures r.None? <==> forall k :: 0 <= k < |m| ==> Render(m[k].0) != text
    ensures r.Some? ==> exists k :: 0 <= k < |m| && Render(m[k].0) == text && m[k].1 == r.value
  {
    if m == [] then None
    else if Render(m[0].0) == text then Some(m[0].1)
    else GetText(m[1..], text)
  }

  /** The keys of the cache are the paths of files: normalised, and never `/` itself. */
  predicate KeysArePaths(m: FdMap)
  {
    forall k :: 0 <= k < |m| ==> IsNormal(m[k].0) && m[k].0 != []
  }

  /**
   * Looking the joined text up finds the entry of the joined path, unless
   * the request path ends in a separator: then no key's text matches.
   */
  lemma {:induction false} CacheLookupByText(m: FdMap, root: Path, requestPath: string)
    requires IsNormal(root) && KeysArePaths(m)
    ensures GetText(m, JoinText(root, requestPath))
      == if KeepsTrailingSeparator(requestPath) then None else Get(m, JoinPath(root, requestPath))
  {
    if m != [] {
      JoinTextNames(root, requestPath, m[0].0);
      assert KeysArePaths(m[1..]) by {
        forall k | 0 <= k < |m[1..]|
          ensures IsNormal(m[1..][k].0) && m[1..][k].0 != []
        {
          assert m[1..][k] == m[k + 1];
        }
      }
      CacheLookupByText(m[1..], root, requestPath);
    }
  }

  /**
   * `Map.prototype.set`: a new key is appended; an existing key keeps its
   * place and takes the new value.
   */
  function MapSet(m: FdMap, key: Path, v: CachedFile): FdMap
  {
    if m == [] then [(key, v)]
    else if m[0].0 == key then [(key, v)] + m[1..]
    else [m[0]] + MapSet(m[1..], key, v)
  }

  /** What `MapSet` promises: the key order, the new value, and every other key untouched. */
  lemma MapSetSpec(m: FdMap, key: Path, v: CachedFile, other: Path)
    ensures Keys(MapSet(m, key, v)) == if key in Keys(m) then Keys(m) else Keys(m) + [key]
    ensures Get(MapSet(m, key, v), key) == Some(v)
    ensures other != key ==> Get(MapSet(m, key, v), other) == Get(m, other)
  {
    MapSetKeys(m, key, v);
    MapSetGet(m, key, v);
    if other != key {
      MapSetOther(m, key, v, other);
    }
  }

  lemma {:induction false} MapSetKeys(m: FdMap, key: Path, v: CachedFile)
    ensures Keys(MapSet(m, key, v)) == if key in Keys(m) then Keys(m) else Keys(m) + [key]
  {
    if m != [] && m[0].0 != key {
      MapSetKeys(m[1..], key, v);
      var rest := MapSet(m[1..], key, v);
      assert Keys([m[0]] + rest) == [m[0].0] + Keys(rest);
      assert Keys(m) == [m[0].0] + Keys(m[1..]);
      assert key in Keys(m) <==> key in Keys(m[1..]);
    } else if m != [] {
      assert Keys([(key, v)] + m[1..]) == [key] + Keys(m[1..]);
      assert Keys(m) == [m[0].0] + Keys(m[1..]);
    }
  }

  lemma {:induction false} MapSetGet(m: FdMap, key: Path, v: CachedFile)
    ensures Get(MapSet(m, key, v), key) == Some(v)
  {
    if m != [] && m[0].0 != key {
      MapSetGet(m[1..], key, v);
      assert ([m[0]] + MapSet(m[1..], key, v))[1..] == MapSet(m[1..], key, v);
    }
  }

  lemma {:induction false} MapSetOther(m: FdMap, key: Path, v: CachedFile, other: Path)
    requires other != key
    ensures Get(MapSet(m, key, v), other) == Get(m, other)
  {
    if m != [] && m[0].0 != key {
      MapSetOther(m[1..], key, v, other);
      assert ([m[0]] + MapSet(m[1..], key, v))[1..] == MapSet(m[1..], key, v);
    } else if m != [] {
      assert ([(key, v)] + m[1..])[1..] == m[1..];
    }
  }

  /** `getFile`'s headers: no `:status`; size, modification time and content type. */
  function FileHeaders(stat: Entry, path: Path): Headers
  {
    Headers(None, stat.size, stat.mtime, GetContentType(Render(path)))
  }

  /** The cache after `fdMap.set` for each found file in turn, descriptors from `firstFd` on. */
  function SetAll(m: FdMap, found: seq<Found>, firstFd: nat): FdMap
    decreases |found|
  {
    if found == [] then m
    else SetAll(MapSet(m, found[0].path, CachedFile(firstFd, FileHeaders(found[0].file, found[0].path))), found[1..], firstFd + 1)
  }

  // ---------------------------------------------------------------------
  // The start-up walk (`prepare`), as a specification
  // ---------------------------------------------------------------------

  /**
   * The regular files `prepare` meets under a listing, in walk order. It
   * inserts every one it meets: permissions only decide whether it fails.
   */
  function Files(dir: Path, children: seq<Entry>): seq<Found>
    decreases children
  {
    if children == [] then [] else FilesOf(dir, children[0]) + Files(dir, children[1..])
  }

  function FilesOf(dir: Path, e: Entry): seq<Found>
    decreases e
  {
    if e.File? then [Found(dir + [e.name], e)] else Files(dir + [e.name], e.children)
  }

  /**
   * `prepare` gets through an entry without throwing: files can be opened
   * and directories listed, all the way down.
   */
  ghost predicate Sound(e: Entry)
    decreases e, 1
  {
    e.readable && (e.Dir? ==> AllSound(e.children))
  }

  /** `prepare` gets through every entry of a listing. */
  ghost predicate AllSound(children: seq<Entry>)
    decreases children, 0
  {
    children == [] || (Sound(children[0]) && AllSound(children[1..]))
  }

  lemma {:induction false} AllSoundAppend(a: seq<Entry>, b: seq<Entry>)
    ensures AllSound(a + b) <==> AllSound(a) && AllSound(b)
  {
    if a == [] {
      assert a + b == b;
    } else {
      assert (a + b)[1..] == a[1..] + b;
      AllSoundAppend(a[1..], b);
    }
  }

  /** The loop of `prepare` gets through one more entry exactly when that entry is sound. */
  lemma AllSoundStep(children: seq<Entry>, i: nat)
    requires i < |children|
    ensures AllSound(children[..i + 1]) <==> AllSound(children[..i]) && Sound(children[i])
  {
    assert children[..i + 1] == children[..i] + [children[i]];
    AllSoundAppend(children[..i], [children[i]]);
    assert [children[i]][1..] == [];
  }

  /** One child that `prepare` cannot get through makes the whole listing fail. */
  lemma AllSoundPrefix(children: seq<Entry>, i: nat)
    requires i <= |children| && !AllSound(children[..i])
    ensures !AllSound(children)
  {
    assert children == children[..i] + children[i..];
    AllSoundAppend(children[..i], children[i..]);
  }

  // ---------------------------------------------------------------------
  // The request handler, as a specification
  // ---------------------------------------------------------------------

  /** `push`: `:path` is `/` and the path relative to the root; the cached descriptor and headers are reused. */
  function PushFor(root: Path, entry: (Path, CachedFile)): Action
  {
    PushStream(Render(Relative(root, entry.0)), entry.1.fd, entry.1.headers)
  }

  /** Whether `pushAll` skips a cached path: its text ends with `index.html`. */
  predicate Excluded(p: Path)
  {
    EndsWith(Render(p), IndexFile)
  }

  /** `pushAll`: the push of every cached entry that is not excluded, in map order. */
  function Pushes(root: Path, m: FdMap): seq<Action>
  {
    if m == [] then []
    else (if Excluded(m[0].0) then [] else [PushFor(root, m[0])]) + Pushes(root, m[1..])
  }

  /** The actions `requestHandler` issues for a parsed request path. */
  function Response(m: FdMap, root: Path, requestPath: string): seq<Action>
    requires IsNormal(root)
  {
    match GetText(m, JoinText(root, requestPath))
    case None => [WriteHead(StatusBadRequest, map[]), EndResponse("")]
    case Some(file) =>
      (if requestPath == EntryDocument then Pushes(root, m) else []) + [RespondWithFd(file.fd, file.headers)]
  }

  // ---------------------------------------------------------------------
  // Properties
  // ---------------------------------------------------------------------

  lemma {:induction false} PushesAppend(root: Path, a: FdMap, b: FdMap)
    ensures Pushes(root, a + b) == Pushes(root, a) + Pushes(root, b)
  {
    if a == [] {
      assert a + b == b;
    } else {
      assert (a + b)[1..] == a[1..] + b;
      PushesAppend(root, a[1..], b);
      AppendAssoc(if Excluded(a[0].0) then [] else [PushFor(root, a[0])], Pushes(root, a[1..]), Pushes(root, b));
    }
  }

  /**
   * `pushAll` pushes exactly the cached entries whose path does not end
   * with `index.html`, each with its own descriptor and headers.
   */
  lemma {:induction false} PushesExactly(root: Path, m: FdMap, a: Action)
    ensures a in Pushes(root, m) <==> exists k :: 0 <= k < |m| && !Excluded(m[k].0) && a == PushFor(root, m[k])
  {
    if m != [] {
      PushesExactly(root, m[1..], a);
      var head := if Excluded(m[0].0) then [] else [PushFor(root, m[0])];
      assert Pushes(root, m) == head + Pushes(root, m[1..]);
      if a in Pushes(root, m[1..]) {
        var k :| 0 <= k < |m[1..]| && !Excluded(m[1..][k].0) && a == PushFor(root, m[1..][k]);
        assert m[k + 1] == m[1..][k];
      }
      if exists k :: 0 <= k < |m| && !Excluded(m[k].0) && a == PushFor(root, m[k]) {
        var k :| 0 <= k < |m| && !Excluded(m[k].0) && a == PushFor(root, m[k]);
        if k > 0 {
          assert m[1..][k - 1] == m[k];
        }
      }
    }
  }

  lemma {:induction false} FilesAppend(dir: Path, a: seq<Entry>, b: seq<Entry>)
    ensures Files(dir, a + b) == Files(dir, a) + Files(dir, b)
  {
    if a == [] {
      assert a + b == b;
    } else {
      assert (a + b)[1..] == a[1..] + b;
      FilesAppend(dir, a[1..], b);
      AppendAssoc(FilesOf(dir, a[0]), Files(dir, a[1..]), Files(dir, b));
    }
  }

  lemma FilesStep(dir: Path, children: seq<Entry>, i: nat)
    requires i < |children|
    ensures Files(dir, children[..i + 1]) == Files(dir, children[..i]) + FilesOf(dir, children[i])
  {
    var c := children[i];
    assert children[..i + 1] == children[..i] + [c];
    assert Files(dir, [c]) == FilesOf(dir, c);
    FilesAppend(dir, children[..i], [c]);
  }

  lemma {:induction false} SetAllAppend(m: FdMap, a: seq<Found>, b: seq<Found>, firstFd: nat)
    ensures SetAll(m, a + b, firstFd) == SetAll(SetAll(m, a, firstFd), b, firstFd + |a|)
    decreases |a|
  {
    if a == [] {
      assert a + b == b;
    } else {
      assert (a + b)[1..] == a[1..] + b;
      SetAllAppend(MapSet(m, a[0].path, CachedFile(firstFd, FileHeaders(a[0].file, a[0].path))), a[1..], b, firstFd + 1);
    }
  }

  /**
   * When `prepare` gets through a listing, it met the same files, in the
   * same order, as the push walk of `Http2FileServer` does.
   */
  lemma {:induction false} FilesArePushList(dir: Path, children: seq<Entry>)
    requires AllSound(children)
    ensures Files(dir, children) == PushList(dir, children)
    decreases children
  {
    if children != [] {
      var c := children[0];
      FilesArePushList(dir, children[1..]);
      if c.Dir? {
        FilesArePushList(dir + [c.name], c.children);
      }
    }
  }

  /** One step of the start-up loop: the files, the cache and the descriptors all grow by one entry's files. */
  lemma PrepareStep(dir: Path, children: seq<Entry>, i: nat, m: FdMap, prior: seq<Path>, found: seq<Found>, firstFd: nat)
    requires i < |children| && found == Files(dir, children[..i])
    ensures SetAll(m, Files(dir, children[..i + 1]), firstFd)
         == SetAll(SetAll(m, found, firstFd), FilesOf(dir, children[i]), firstFd + |found|)
    ensures prior + PathsOf(Files(dir, children[..i + 1])) == (prior + PathsOf(found)) + PathsOf(FilesOf(dir, children[i]))
  {
    FilesStep(dir, children, i);
    SetAllAppend(m, found, FilesOf(dir, children[i]), firstFd);
    PathsOfExtend(prior, found, FilesOf(dir, children[i]));
  }

  /** Setting distinct keys into an empty map lists them in order. */
  lemma {:induction false} SetAllKeys(m: FdMap, found: seq<Found>, firstFd: nat)
    requires NoDuplicates(PathsOf(found))
    requires forall k :: 0 <= k < |found| ==> found[k].path !in Keys(m)
    ensures Keys(SetAll(m, found, firstFd)) == Keys(m) + PathsOf(found)
    decreases |found|
  {
    if found != [] {
      var m' := MapSet(m, found[0].path, CachedFile(firstFd, FileHeaders(found[0].file, found[0].path)));
      MapSetSpec(m, found[0].path, CachedFile(firstFd, FileHeaders(found[0].file, found[0].path)), found[0].path);
      var rest := found[1..];
      assert PathsOf(found) == [found[0].path] + PathsOf(rest);
      forall k | 0 <= k < |rest|
        ensures rest[k].path !in Keys(m')
      {
        assert PathsOf(found)[0] != PathsOf(found)[k + 1];
      }
      forall i, j | 0 <= i < j < |PathsOf(rest)|
        ensures PathsOf(rest)[i] != PathsOf(rest)[j]
      {
        assert PathsOf(found)[i + 1] != PathsOf(found)[j + 1];
      }
      SetAllKeys(m', rest, firstFd + 1);
      AppendAssoc(Keys(m), [found[0].path], PathsOf(rest));
    }
  }

  /**
   * After a successful start-up on a well-formed tree, the cache keys are
   * exactly the regular files under the root, each once, in walk order;
   * directories are walked but never inserted.
   */
  lemma StartupKeys(tree: Entry, root: Path, firstFd: nat, p: Path)
    requires WellFormed(tree) && Lookup(tree, root).Some? && Sound(Lookup(tree, root).value)
    requires Lookup(tree, root).value.Dir?
    ensures var d := Lookup(tree, root).value;
            var keys := Keys(SetAll([], Files(root, d.children), firstFd));
            && keys == PathsOf(PushList(root, d.children))
            && NoDuplicates(keys)
            && (p in keys <==> Below(root, p) && Reachable(d.children, p[|root|..]))
  {
    var d := Lookup(tree, root).value;
    LookupWellFormed(tree, root);
    FilesArePushList(root, d.children);
    PushListDistinct(root, d.children);
    PushListExactly(root, d.children, p);
    SetAllKeys([], Files(root, d.children), firstFd);
  }

  /** The cache start-up builds is keyed by file paths: normalised, and below the root. */
  lemma StartupKeysArePaths(tree: Entry, root: Path, firstFd: nat)
    requires IsNormal(root) && WellFormed(tree) && Lookup(tree, root).Some? && Sound(Lookup(tree, root).value)
    requires Lookup(tree, root).value.Dir?
    ensures KeysArePaths(SetAll([], Files(root, Lookup(tree, root).value.children), firstFd))
  {
    var d := Lookup(tree, root).value;
    var m := SetAll([], Files(root, d.children), firstFd);
    StartupKeys(tree, root, firstFd, root);
    var pushed := PushList(root, d.children);
    assert d.children[0..] == d.children;
    forall k | 0 <= k < |m|
      ensures IsNormal(m[k].0) && m[k].0 != []
    {
      assert m[k].0 == Keys(m)[k] == PathsOf(pushed)[k] == pushed[k].path;
      PushListPaths(tree, root, d, 0, k);
    }
  }

  /**
   * A path that is not cached, or any request path ending in a separator,
   * is answered 400 with an empty body, and nothing is pushed.
   */
  lemma NotCachedIsBadRequest(m: FdMap, root: Path, requestPath: string)
    requires IsNormal(root) && KeysArePaths(m)
    requires KeepsTrailingSeparator(requestPath) || JoinPath(root, requestPath) !in Keys(m)
    ensures Response(m, root, requestPath) == [WriteHead(StatusBadRequest, map[]), EndResponse("")]
    ensures forall k :: 0 <= k < |Response(m, root, requestPath)| ==> !Response(m, root, requestPath)[k].PushStream?
  {
    CacheLookupByText(m, root, requestPath);
  }

  /**
   * For a cached `/index.html`, every push goes out before the primary
   * `respondWithFD`, which is the last action and uses the cached entry.
   */
  lemma EntryDocumentPushesFirst(m: FdMap, root: Path)
    requires IsNormal(root) && KeysArePaths(m) && Get(m, root + [IndexFile]).Some?
    ensures var r := Response(m, root, EntryDocument);
            var file := Get(m, root + [IndexFile]).value;
            && r == Pushes(root, m) + [RespondWithFd(file.fd, file.headers)]
            && forall k :: 0 <= k < |r| - 1 ==> r[k].PushStream?
  {
    EntryTarget(root);
    CacheLookupByText(m, root, EntryDocument);
    var r := Response(m, root, EntryDocument);
    var pushes := Pushes(root, m);
    forall k | 0 <= k < |r| - 1
      ensures r[k].PushStream?
    {
      assert r[k] == pushes[k];
      assert r[k] in pushes;
      PushesExactly(root, m, r[k]);
    }
  }

  /** Only a cached `/index.html` pushes anything. */
  lemma PushOnlyForEntryDocument(m: FdMap, root: Path, requestPath: string)
    requires IsNormal(root) && requestPath != EntryDocument
    ensures forall k :: 0 <= k < |Response(m, root, requestPath)| ==> !Response(m, root, requestPath)[k].PushStream?
  {
  }

  // ---------------------------------------------------------------------
  // The server
  // ---------------------------------------------------------------------

  /** The module state of `server.js`: its root and `fdMap`. */
  class Server {
    const root: Path
    const fs: FilePort
    var fdMap: FdMap

    ghost predicate Valid()
    {
      IsNormal(root) && WellFormed(fs.tree)
    }

    /** The root is `join(process.cwd(), "dist")`; the cache starts empty. */
    constructor (cwd: Path, fs: FilePort)
      requires IsNormal(cwd) && WellFormed(fs.tree)
      ensures Valid() && root == cwd + [Dist] && this.fs == fs && fdMap == []
    {
      JoinName(cwd, Dist);
      root := JoinPath(cwd, Dist);
      this.fs := fs;
      fdMap := [];
    }

    /** `getFile`: opening fails unless the path is readable. */
    method GetFile(path: Path) returns (ok: bool, file: CachedFile)
      modifies fs`descriptors
      ensures ok == IsReadable(fs.tree, path)
      ensures ok ==> file == CachedFile(|old(fs.descriptors)|, FileHeaders(Lookup(fs.tree, path).value, path))
      ensures ok ==> fs.descriptors == old(fs.descriptors) + [path]
      ensures !ok ==> fs.descriptors == old(fs.descriptors)
    {
      var fd;
      ok, fd := fs.OpenSync(path, false);
      if !ok {
        file := CachedFile(0, Headers(None, 0, "", None));
        return;
      }
      var stat := Lookup(fs.tree, path).value;
      file := CachedFile(fd, Headers(None, stat.size, stat.mtime, GetContentType(Render(path))));
    }

    /** The cache and the open descriptors after setting `found` into `m`, with `prior` open before. */
    ghost predicate Cached(m: FdMap, prior: seq<Path>, found: seq<Found>)
      reads this, fs
    {
      && fdMap == SetAll(m, found, |prior|)
      && fs.descriptors == prior + PathsOf(found)
    }

    /** `prepare()` at start-up: walks the root; fails if the root is not a listable directory. */
    method Startup() returns (ok: bool)
      requires Valid()
      modifies this`fdMap, fs`descriptors
      ensures ok == (Lookup(fs.tree, root).Some? && Lookup(fs.tree, root).value.Dir? && Sound(Lookup(fs.tree, root).value))
      ensures ok ==> Cached(old(fdMap), old(fs.descriptors), Files(root, Lookup(fs.tree, root).value.children))
    {
      var entry := Lookup(fs.tree, root);
      if entry.None? || entry.value.File? {
        return false;
      }
      ok := Prepare(root, entry.value);
    }

    /**
     * `prepare($root)`: lists `dir` and caches each regular file under it,
     * recursing into everything else. Throws (`ok` false) on the first
     * entry that cannot be opened or listed, leaving what was cached so far.
     */
    method Prepare(dir: Path, ghost d: Entry) returns (ok: bool)
      requires Valid() && IsNormal(dir)
      requires Lookup(fs.tree, dir) == Some(d) && d.Dir?
      modifies this`fdMap, fs`descriptors
      decreases d, 3
      ensures ok == Sound(d)
      ensures ok ==> Cached(old(fdMap), old(fs.descriptors), Files(dir, d.children))
    {
      if !IsReadable(fs.tree, dir) {
        return false;
      }
      var names := Readdir(fs.tree, dir);
      ok := PrepareNames(dir, names, d);
    }

    /** The loop of `prepare` over the listing `names` of `dir`. */
    method PrepareNames(dir: Path, names: seq<string>, ghost d: Entry) returns (ok: bool)
      requires Valid() && IsNormal(dir)
      requires Lookup(fs.tree, dir) == Some(d) && d.Dir? && d.readable && names == Names(d.children)
      modifies this`fdMap, fs`descriptors
      decreases d, 2
      ensures ok == Sound(d)
      ensures ok ==> Cached(old(fdMap), old(fs.descriptors), Files(dir, d.children))
    {
      var i := 0;
      while i < |names|
        invariant 0 <= i <= |names|
        invariant AllSound(d.children[..i])
        invariant Cached(old(fdMap), old(fs.descriptors), Files(dir, d.children[..i]))
      {
        ok := PrepareNext(dir, names[i], d, i, old(fdMap), old(fs.descriptors));
        AllSoundStep(d.children, i);
        if !ok {
          AllSoundPrefix(d.children, i + 1);
          return false;
        }
        i := i + 1;
      }
      assert d.children[..i] == d.children;
      ok := true;
    }

    /** One step of the loop of `prepare`: entry `i` of the listing extends the cache built so far. */
    method PrepareNext(dir: Path, name: string, ghost d: Entry, ghost i: nat, ghost m: FdMap, ghost prior: seq<Path>)
      returns (ok: bool)
      requires Valid() && IsNormal(dir)
      requires Lookup(fs.tree, dir) == Some(d) && d.Dir? && i < |d.children| && name == d.children[i].name
      requires Cached(m, prior, Files(dir, d.children[..i]))
      modifies this`fdMap, fs`descriptors
      decreases d, 1
      ensures ok == Sound(d.children[i])
      ensures ok ==> Cached(m, prior, Files(dir, d.children[..i + 1]))
    {
      ghost var found := Files(dir, d.children[..i]);
      ghost var before := fdMap;
      ghost var openBefore := fs.descriptors;
      assert before == SetAll(m, found, |prior|);
      assert |openBefore| == |prior| + |found|;
      ok := PrepareChild(dir, name, d, i);
      if ok {
        ghost var more := FilesOf(dir, d.children[i]);
        assert fdMap == SetAll(before, more, |openBefore|);
        PrepareStep(dir, d.children, i, m, prior, found, |prior|);
      }
    }

    /** One listed name of `dir`: a regular file is opened and cached, anything else walked. */
    method PrepareChild(dir: Path, name: string, ghost d: Entry, ghost i: nat) returns (ok: bool)
      requires Valid() && IsNormal(dir)
      requires Lookup(fs.tree, dir) == Some(d) && d.Dir? && i < |d.children| && name == d.children[i].name
      modifies this`fdMap, fs`descriptors
      decreases d, 0
      ensures ok == Sound(d.children[i])
      ensures ok ==> Cached(old(fdMap), old(fs.descriptors), FilesOf(dir, d.children[i]))
    {
      ghost var c := d.children[i];
      LookupChild(fs.tree, dir, d, i);
      JoinName(dir, name);
      var path := JoinPath(dir, name);
      var stats := Lookup(fs.tree, path).value;
      if stats.File? {
        var file;
        ok, file := GetFile(path);
        if !ok {
          return;
        }
        fdMap := MapSet(fdMap, path, file);
        assert FilesOf(dir, c) == [Found(path, c)];
      } else {
        ok := Prepare(path, c);
      }
    }

    /**
     * `requestHandler`: answers from the cache, pushing first for
     * `/index.html`; a path that is not cached gets 400. Nothing but the
     * response changes: the cache is only written at start-up.
     */
    method RequestHandler(context: HttpContext)
      requires IsNormal(root)
      modifies context`sent
      ensures context.sent == old(context.sent) + Response(fdMap, root, context.request.path)
    {
      var parsedPath := context.request.path;
      var path := JoinText(root, parsedPath);
      var file := GetText(fdMap, path);
      if file.Some? {
        if parsedPath == EntryDocument {
          PushAll(context);
        } else {
          assert context.sent == old(context.sent) + [];
        }
        AppendAssoc(old(context.sent), if parsedPath == EntryDocument then Pushes(root, fdMap) else [], [RespondWithFd(file.value.fd, file.value.headers)]);
        context.sent := context.sent + [RespondWithFd(file.value.fd, file.value.headers)];
      } else {
        context.sent := context.sent + [WriteHead(StatusBadRequest, map[])];
        context.sent := context.sent + [EndResponse("")];
      }
    }

    /** `pushAll`: iterates the cache in insertion order. */
    method PushAll(context: HttpContext)
      modifies context`sent
      ensures context.sent == old(context.sent) + Pushes(root, fdMap)
    {
      var i := 0;
      while i < |fdMap|
        invariant 0 <= i <= |fdMap|
        invariant context.sent == old(context.sent) + Pushes(root, fdMap[..i])
      {
        var (path, info) := fdMap[i];
        ghost var step := if Excluded(path) then [] else [PushFor(root, fdMap[i])];
        if !EndsWith(Render(path), IndexFile) {
          Push(context, path, info);
        } else {
          assert context.sent == context.sent + [];
        }
        assert fdMap[..i + 1] == fdMap[..i] + [fdMap[i]];
        assert Pushes(root, [fdMap[i]]) == step;
        PushesAppend(root, fdMap[..i], [fdMap[i]]);
        AppendAssoc(old(context.sent), Pushes(root, fdMap[..i]), step);
        i := i + 1;
      }
      assert fdMap[..i] == fdMap;
    }

    /** `push`: `:path` is `/` + the root-relative path; the cached descriptor and headers go out unchanged. */
    method Push(context: HttpContext, filePath: Path, info: CachedFile)
      modifies context`sent
      ensures context.sent == old(context.sent) + [PushFor(root, (filePath, info))]
    {
      var pushPath := "/" + JoinWith(Relative(root, filePath), '/');
      context.sent := context.sent + [PushStream(pushPath, info.fd, info.headers)];
    }
  }
}
