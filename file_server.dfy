/**
 * The two request handlers of the runtime's Node server: `FileServer`
 * (HTTP/1, reads the whole file) and `Http2FileServer` (HTTP/2, responds
 * from a descriptor and, for `/index.html`, pushes every readable file
 * under the root). Server push is section 8.2 of RFC 7540; the pushed
 * request carries its path in the `:path` pseudo-header (section 8.1.2.3).
 */
module FileServer {
  import opened Common
  import opened Paths
  import opened FileSystem
  import opened Http

  /** The file name of the entry document. */
  const IndexFile: string := "index.html"

  /** The request path whose response triggers the push fan-out: `/index.html`. */
  const EntryDocument: string := "/" + IndexFile

  /** What a handler did to one request. */
  datatype Outcome = Outcome(rejected: bool, sent: seq<Action>, openedPaths: seq<Path>)

  /** A file found by the push walk: its joined path and its entry. */
  datatype Found = Found(path: Path, file: Entry)


  /** The "not found" answer: status only, empty body. */
  function NotFound(): seq<Action>
  {
    [WriteHead(StatusNotFound, map[]), EndResponse("")]
  }

  /** The headers `getFile` builds from a stat result and a content type. */
  function HeadersOf(stat: Entry, contentType: string): Headers
  {
    Headers(Some(StatusOk), stat.size, stat.mtime, Some(contentType))
  }

  /** `join(root, url.parse(url).path)`: the file a request names. */
  function Target(root: Path, requestPath: string): Path
    requires IsNormal(root)
  {
    JoinPath(root, requestPath)
  }

  /**
   * `isReadable(join(root, path))`: the joined text keeps a separator at
   * its end when the request path has one, and then names only a directory.
   */
  predicate TargetReadable(tree: Entry, root: Path, requestPath: string)
    requires IsNormal(root)
  {
    IsReadableAt(tree, Target(root, requestPath), KeepsTrailingSeparator(requestPath))
  }

  // ---------------------------------------------------------------------
  // The push walk (`pushAll`), as a specification
  // ---------------------------------------------------------------------

  /**
   * The files `pushAll(stream, dir)` pushes, in push order, for a directory
   * listing `children`: each readable regular file, and the files of each
   * readable directory, recursively. Unreadable entries are skipped.
   */
  function PushList(dir: Path, children: seq<Entry>): seq<Found>
    decreases children
  {
    if children == [] then [] else PushEntry(dir, children[0]) + PushList(dir, children[1..])
  }

  function PushEntry(dir: Path, e: Entry): seq<Found>
    decreases e
  {
    if !e.readable then []
    else if e.File? then [Found(dir + [e.name], e)]
    else PushList(dir + [e.name], e.children)
  }

  function PathsOf(found: seq<Found>): (r: seq<Path>)
    ensures |r| == |found|
    ensures forall k :: 0 <= k < |found| ==> r[k] == found[k].path
  {
    if found == [] then [] else [found[0].path] + PathsOf(found[1..])
  }

  /** One `push` per found file, opening descriptors from `firstFd` on. */
  function PushActions(contentTypeOf: string -> string, found: seq<Found>, firstFd: nat): (r: seq<Action>)
    ensures |r| == |found|
    ensures forall k :: 0 <= k < |r| ==> r[k].PushStream?
  {
    if found == [] then []
    else [PushOf(contentTypeOf, found[0], firstFd)] + PushActions(contentTypeOf, found[1..], firstFd + 1)
  }

  /** The push of one found file on descriptor `fd`. */
  function PushOf(contentTypeOf: string -> string, f: Found, fd: nat): Action
  {
    PushStream(Render(f.path), fd, HeadersOf(f.file, contentTypeOf(Render(f.path))))
  }

  /** `p` lies strictly below the directory `dir`. */
  predicate Below(dir: Path, p: Path)
  {
    |p| > |dir| && p[..|dir|] == dir
  }

  /**
   * `rel` names, below a directory listing `children`, a readable regular
   * file reached only through readable directories.
   */
  ghost predicate Reachable(children: seq<Entry>, rel: Path)
    decreases |rel|, 1
  {
    rel != [] &&
    match Child(children, rel[0])
    case None => false
    case Some(c) => Reaches(c, rel)
  }

  /** `rel` starts with the entry's own name and goes on to a readable regular file. */
  ghost predicate Reaches(e: Entry, rel: Path)
    decreases |rel|, 0
  {
    rel != [] && rel[0] == e.name && e.readable &&
    if |rel| == 1 then e.File? else e.Dir? && Reachable(e.children, rel[1..])
  }


  // ---------------------------------------------------------------------
  // The handlers' decisions, as specifications
  // ---------------------------------------------------------------------

  /** `FileServer.handleRequest` once the transport guard has passed. */
  function PlainOutcome(tree: Entry, root: Path, contentTypeOf: string -> string, requestPath: string): Outcome
    requires IsNormal(root)
  {
    var path := Target(root, requestPath);
    if !TargetReadable(tree, root, requestPath) then Outcome(false, NotFound(), [])
    else match Lookup(tree, path).value
      case File(_, _, _, _, content) =>
        Outcome(false, [WriteHead(StatusOk, map["Content-Type" := contentTypeOf(JoinText(root, requestPath))]), EndResponse(content)], [])
      case Dir(_, _, _, _, _) =>
        // readFile on a directory rejects: nothing is written
        Outcome(true, [], [])
  }

  /** `readdirSync(dir)` succeeds: `dir` is a readable directory. */
  predicate Listable(tree: Entry, dir: Path)
  {
    Lookup(tree, dir).Some? && Lookup(tree, dir).value.Dir? && Lookup(tree, dir).value.readable
  }

  /** The files pushed for `requestPath`: the walk of the root for `/index.html`, else none. */
  function Pushed(tree: Entry, root: Path, requestPath: string): seq<Found>
  {
    if requestPath == EntryDocument && Listable(tree, root) then PushList(root, Lookup(tree, root).value.children) else []
  }

  /**
   * `Http2FileServer.handleRequest` once the transport guard has passed;
   * descriptors are numbered from `firstFd`. For `/index.html` on a root
   * that cannot be listed, `readdirSync` throws after the primary response
   * was issued: the call rejects.
   */
  function Http2Outcome(tree: Entry, root: Path, contentTypeOf: string -> string, requestPath: string, firstFd: nat): Outcome
    requires IsNormal(root)
  {
    var path := Target(root, requestPath);
    if !TargetReadable(tree, root, requestPath) then Outcome(false, NotFound(), [])
    else
      var pushed := Pushed(tree, root, requestPath);
      Outcome(requestPath == EntryDocument && !Listable(tree, root),
              Primary(tree, path, JoinText(root, requestPath), contentTypeOf, firstFd) + PushActions(contentTypeOf, pushed, firstFd + 1),
              [path] + PathsOf(pushed))
  }

  /**
   * The answer to the request itself: close on stream close, then respond
   * from `fd`; `text` is the joined path whose content type is sent.
   */
  function Primary(tree: Entry, path: Path, text: string, contentTypeOf: string -> string, fd: nat): seq<Action>
    requires Lookup(tree, path).Some?
  {
    [CloseFdOnStreamClose(fd), RespondWithFd(fd, HeadersOf(Lookup(tree, path).value, contentTypeOf(text)))]
  }

  /** `join(root, '/index.html')` is the `index.html` entry of the root, with no separator at the end. */
  lemma EntryTarget(root: Path)
    requires IsNormal(root)
    ensures Target(root, EntryDocument) == root + [IndexFile]
    ensures !KeepsTrailingSeparator(EntryDocument)
    ensures JoinText(root, EntryDocument) == Render(root + [IndexFile])
  {
    JoinRootedName(root, IndexFile);
    assert EntryDocument[|EntryDocument| - 1] == 'l';
  }

  // ---------------------------------------------------------------------
  // Properties of the push walk
  // ---------------------------------------------------------------------

  lemma {:induction false} PushListAppend(dir: Path, a: seq<Entry>, b: seq<Entry>)
    ensures PushList(dir, a + b) == PushList(dir, a) + PushList(dir, b)
  {
    if a != [] {
      assert (a + b)[0] == a[0];
      assert (a + b)[1..] == a[1..] + b;
      PushListAppend(dir, a[1..], b);
    } else {
      assert a + b == b;
    }
  }

  lemma {:induction false} PushActionsAppend(contentTypeOf: string -> string, a: seq<Found>, b: seq<Found>, firstFd: nat)
    ensures PushActions(contentTypeOf, a + b, firstFd) ==
            PushActions(contentTypeOf, a, firstFd) + PushActions(contentTypeOf, b, firstFd + |a|)
  {
    if a == [] {
      assert a + b == b;
    } else {
      assert (a + b)[1..] == a[1..] + b;
      PushActionsAppend(contentTypeOf, a[1..], b, firstFd + 1);
    }
  }

  /** Walking one more entry of a listing appends that entry's files. */
  lemma PushListStep(dir: Path, children: seq<Entry>, i: nat)
    requires i < |children|
    ensures PushList(dir, children[..i + 1]) == PushList(dir, children[..i]) + PushEntry(dir, children[i])
  {
    var c := children[i];
    assert children[..i + 1] == children[..i] + [c];
    assert PushList(dir, [c]) == PushEntry(dir, c);
    PushListAppend(dir, children[..i], [c]);
  }

  /** Issuing the pushes of `more` after those of `found` issues the pushes of both. */
  lemma PushActionsExtend(contentTypeOf: string -> string, sent: seq<Action>, found: seq<Found>, more: seq<Found>, firstFd: nat)
    ensures sent + PushActions(contentTypeOf, found, firstFd) + PushActions(contentTypeOf, more, firstFd + |found|) ==
            sent + PushActions(contentTypeOf, found + more, firstFd)
  {
    PushActionsAppend(contentTypeOf, found, more, firstFd);
    AppendAssoc(sent, PushActions(contentTypeOf, found, firstFd), PushActions(contentTypeOf, more, firstFd + |found|));
  }

  lemma PathsOfExtend(prior: seq<Path>, found: seq<Found>, more: seq<Found>)
    ensures prior + PathsOf(found) + PathsOf(more) == prior + PathsOf(found + more)
  {
    PathsOfAppend(found, more);
    AppendAssoc(prior, PathsOf(found), PathsOf(more));
  }

  /** One turn of the loop of `pushAll`: the pushes of child `i` follow those of the children before it. */
  lemma SentStep(contentTypeOf: string -> string, sent0: seq<Action>, dir: Path, children: seq<Entry>,
                 i: nat, firstFd: nat, sent1: seq<Action>, sent2: seq<Action>)
    requires i < |children|
    requires sent1 == sent0 + PushActions(contentTypeOf, PushList(dir, children[..i]), firstFd)
    requires sent2 == sent1 + PushActions(contentTypeOf, PushEntry(dir, children[i]), firstFd + |PushList(dir, children[..i])|)
    ensures sent2 == sent0 + PushActions(contentTypeOf, PushList(dir, children[..i + 1]), firstFd)
  {
    PushListStep(dir, children, i);
    PushActionsExtend(contentTypeOf, sent0, PushList(dir, children[..i]), PushEntry(dir, children[i]), firstFd);
  }

  /** The descriptors opened for child `i` follow those of the children before it. */
  lemma DescriptorsStep(descriptors0: seq<Path>, dir: Path, children: seq<Entry>, i: nat, descriptors1: seq<Path>, descriptors2: seq<Path>)
    requires i < |children|
    requires descriptors1 == descriptors0 + PathsOf(PushList(dir, children[..i]))
    requires descriptors2 == descriptors1 + PathsOf(PushEntry(dir, children[i]))
    ensures descriptors2 == descriptors0 + PathsOf(PushList(dir, children[..i + 1]))
  {
    PushListStep(dir, children, i);
    PathsOfExtend(descriptors0, PushList(dir, children[..i]), PushEntry(dir, children[i]));
  }

  /** The `k`-th push goes out on descriptor `firstFd + k`. */
  lemma {:induction false} PushActionsAt(contentTypeOf: string -> string, found: seq<Found>, firstFd: nat, k: nat)
    requires k < |found|
    ensures PushActions(contentTypeOf, found, firstFd)[k] == PushOf(contentTypeOf, found[k], firstFd + k)
  {
    if k > 0 {
      PushActionsAt(contentTypeOf, found[1..], firstFd + 1, k - 1);
    }
  }

  lemma {:induction false} PathsOfAppend(a: seq<Found>, b: seq<Found>)
    ensures PathsOf(a + b) == PathsOf(a) + PathsOf(b)
  {
    if a == [] {
      assert a + b == b;
    } else {
      assert (a + b)[1..] == a[1..] + b;
      PathsOfAppend(a[1..], b);
    }
  }

  lemma ReachableCons(c: Entry, rest: seq<Entry>, rel: Path)
    requires rel != []
    ensures Reachable([c] + rest, rel) == if rel[0] == c.name then Reaches(c, rel) else Reachable(rest, rel)
  {
    assert ([c] + rest)[1..] == rest;
  }

  /** The first name of a listing with distinct names does not occur in the rest. */
  lemma DistinctTail(children: seq<Entry>)
    requires DistinctNames(children) && children != []
    ensures DistinctNames(children[1..])
    ensures Child(children[1..], children[0].name).None?
  {
  }

  /**
   * A path is pushed by the walk of a listing exactly when it lies below
   * the listed directory and names a reachable readable regular file.
   */
  lemma {:induction false} PushListExactly(dir: Path, children: seq<Entry>, p: Path)
    requires DistinctNames(children)
    requires forall k :: 0 <= k < |children| ==> WellFormed(children[k])
    ensures p in PathsOf(PushList(dir, children)) <==> Below(dir, p) && Reachable(children, p[|dir|..])
    decreases children
  {
    if children == [] {
      assert PathsOf(PushList(dir, children)) == [];
    } else {
      var c, rest := children[0], children[1..];
      assert children == [c] + rest;
      DistinctTail(children);
      assert forall k :: 0 <= k < |rest| ==> rest[k] == children[k + 1];
      assert PushList(dir, children) == PushEntry(dir, c) + PushList(dir, rest);
      PathsOfAppend(PushEntry(dir, c), PushList(dir, rest));
      PushEntryExactly(dir, c, p);
      PushListExactly(dir, rest, p);
      if Below(dir, p) {
        var rel := p[|dir|..];
        ReachableCons(c, rest, rel);
        if rel[0] == c.name {
          assert !Reachable(rest, rel);
        }
      }
    }
  }

  lemma {:induction false} PushEntryExactly(dir: Path, e: Entry, p: Path)
    requires WellFormed(e)
    ensures p in PathsOf(PushEntry(dir, e)) <==> Below(dir, p) && Reaches(e, p[|dir|..])
    decreases e
  {
    if !e.readable {
      assert PathsOf(PushEntry(dir, e)) == [];
    } else if e.File? {
      PushFileExactly(dir, e, p);
    } else {
      var sub := dir + [e.name];
      PushListExactly(sub, e.children, p);
      assert PushEntry(dir, e) == PushList(sub, e.children);
      DescendExactly(dir, e, p);
    }
  }

  lemma PushFileExactly(dir: Path, e: Entry, p: Path)
    requires e.File? && e.readable
    ensures p in PathsOf(PushEntry(dir, e)) <==> Below(dir, p) && Reaches(e, p[|dir|..])
  {
    assert PathsOf(PushEntry(dir, e)) == [dir + [e.name]];
    if p == dir + [e.name] {
      assert p[..|dir|] == dir && p[|dir|..] == [e.name];
    }
    if Below(dir, p) && Reaches(e, p[|dir|..]) {
      assert p == p[..|dir|] + p[|dir|..];
    }
  }

  /** Below a readable directory `e` in `dir`, reaching through `e` is reaching within its listing. */
  lemma DescendExactly(dir: Path, e: Entry, p: Path)
    requires e.Dir? && e.readable
    ensures (Below(dir + [e.name], p) && Reachable(e.children, p[|dir| + 1..])) <==> (Below(dir, p) && Reaches(e, p[|dir|..]))
  {
    var sub := dir + [e.name];
    if Below(sub, p) {
      assert p[..|dir|] == sub[..|dir|] == dir;
      assert p[|dir|..][0] == e.name && p[|dir|..][1..] == p[|sub|..];
    }
    if Below(dir, p) && Reaches(e, p[|dir|..]) {
      var rel := p[|dir|..];
      assert p[..|sub|] == p[..|dir|] + [rel[0]];
      assert rel[1..] == p[|sub|..];
    }
  }

  /** The walk pushes each path at most once. */
  lemma {:induction false} PushListDistinct(dir: Path, children: seq<Entry>)
    requires DistinctNames(children)
    requires forall k :: 0 <= k < |children| ==> WellFormed(children[k])
    ensures NoDuplicates(PathsOf(PushList(dir, children)))
    decreases children
  {
    if children != [] {
      var c, rest := children[0], children[1..];
      assert forall k :: 0 <= k < |rest| ==> rest[k] == children[k + 1];
      DistinctTail(children);
      var a, b := PathsOf(PushEntry(dir, c)), PathsOf(PushList(dir, rest));
      PathsOfAppend(PushEntry(dir, c), PushList(dir, rest));
      PushEntryDistinct(dir, c);
      PushListDistinct(dir, rest);
      forall i, j | 0 <= i < |a| && 0 <= j < |b|
        ensures a[i] != b[j]
      {
        PushedApart(dir, children, a[i], b[j]);
      }
      NoDuplicatesAppend(a, b);
    }
  }

  /** A path pushed for the first child differs from every path pushed for the others. */
  lemma PushedApart(dir: Path, children: seq<Entry>, p: Path, q: Path)
    requires DistinctNames(children) && children != []
    requires forall k :: 0 <= k < |children| ==> WellFormed(children[k])
    requires p in PathsOf(PushEntry(dir, children[0])) && q in PathsOf(PushList(dir, children[1..]))
    ensures p != q
  {
    var c, rest := children[0], children[1..];
    assert forall k :: 0 <= k < |rest| ==> rest[k] == children[k + 1];
    DistinctTail(children);
    PushEntryExactly(dir, c, p);
    PushListExactly(dir, rest, q);
    assert p[|dir|..][0] == p[|dir|] == c.name;
    assert q[|dir|..][0] == q[|dir|];
    assert p[|dir|] != q[|dir|];
  }


  lemma {:induction false} PushEntryDistinct(dir: Path, e: Entry)
    requires WellFormed(e)
    ensures NoDuplicates(PathsOf(PushEntry(dir, e)))
    decreases e
  {
    if e.readable && e.Dir? {
      PushListDistinct(dir + [e.name], e.children);
    }
  }

  /** Every pushed file is what a lookup of its path finds: a readable regular file. */
  lemma {:induction false} PushListFound(tree: Entry, dir: Path, d: Entry, i: nat, k: nat)
    requires WellFormed(tree) && Lookup(tree, dir) == Some(d) && d.Dir? && i <= |d.children|
    requires k < |PushList(dir, d.children[i..])|
    ensures Lookup(tree, PushList(dir, d.children[i..])[k].path) == Some(PushList(dir, d.children[i..])[k].file)
    ensures PushList(dir, d.children[i..])[k].file.File? && PushList(dir, d.children[i..])[k].file.readable
    decreases d, |d.children| - i
  {
    var c := d.children[i];
    var here := PushEntry(dir, c);
    assert d.children[i..][1..] == d.children[i + 1..];
    if k < |here| {
      LookupChild(tree, dir, d, i);
      if c.Dir? {
        assert c.children[0..] == c.children;
        PushListFound(tree, dir + [c.name], c, 0, k);
      }
    } else {
      PushListFound(tree, dir, d, i + 1, k - |here|);
    }
  }

  /** Every pushed path is a normalised path strictly below the directory walked. */
  lemma {:induction false} PushListPaths(tree: Entry, dir: Path, d: Entry, i: nat, k: nat)
    requires WellFormed(tree) && IsNormal(dir) && Lookup(tree, dir) == Some(d) && d.Dir? && i <= |d.children|
    requires k < |PushList(dir, d.children[i..])|
    ensures IsNormal(PushList(dir, d.children[i..])[k].path) && Below(dir, PushList(dir, d.children[i..])[k].path)
    decreases d, |d.children| - i
  {
    var c := d.children[i];
    var here := PushEntry(dir, c);
    assert d.children[i..][1..] == d.children[i + 1..];
    if k < |here| {
      LookupChild(tree, dir, d, i);
      var sub := dir + [c.name];
      assert IsNormal(sub) by {
        forall j | 0 <= j < |sub|
          ensures IsName(sub[j])
        {
          if j < |dir| {
            assert sub[j] == dir[j];
          }
        }
      }
      assert sub[..|dir|] == dir;
      if c.Dir? {
        assert c.children[0..] == c.children;
        PushListPaths(tree, sub, c, 0, k);
        var p := here[k].path;
        assert p[..|dir|] == p[..|sub|][..|dir|];
      }
    } else {
      PushListPaths(tree, dir, d, i + 1, k - |here|);
    }
  }

  /** For `/index.html` on a listable root, the answer is the primary response and then the walk's pushes. */
  lemma Http2EntryOutcome(tree: Entry, root: Path, contentTypeOf: string -> string, firstFd: nat)
    requires IsNormal(root) && IsReadable(tree, root + [IndexFile]) && IsReadable(tree, root)
    ensures Lookup(tree, root).value.Dir?
    ensures var o := Http2Outcome(tree, root, contentTypeOf, EntryDocument, firstFd);
            var pushed := PushList(root, Lookup(tree, root).value.children);
            && !o.rejected
            && o.sent == Primary(tree, root + [IndexFile], Render(root + [IndexFile]), contentTypeOf, firstFd)
                         + PushActions(contentTypeOf, pushed, firstFd + 1)
            && o.openedPaths == [root + [IndexFile]] + PathsOf(pushed)
  {
    EntryTarget(root);
    ParentIsDir(tree, root, IndexFile);
  }

  /**
   * For `/index.html` on a readable root, the push set is every readable
   * regular file reachable under the root, each once, including
   * `index.html` itself.
   */
  lemma Http2PushSet(tree: Entry, root: Path, contentTypeOf: string -> string, firstFd: nat, p: Path)
    requires IsNormal(root) && WellFormed(tree)
    requires IsReadable(tree, Target(root, EntryDocument))
    requires IsReadable(tree, root)
    ensures Lookup(tree, root).value.Dir?
    ensures var pushed := PushList(root, Lookup(tree, root).value.children);
            var o := Http2Outcome(tree, root, contentTypeOf, EntryDocument, firstFd);
            && !o.rejected
            && o.sent[2..] == PushActions(contentTypeOf, pushed, firstFd + 1)
            && NoDuplicates(PathsOf(pushed))
            && (p in PathsOf(pushed) <==> Below(root, p) && Reachable(Lookup(tree, root).value.children, p[|root|..]))
  {
    EntryTarget(root);
    Http2EntryOutcome(tree, root, contentTypeOf, firstFd);
    var d := Lookup(tree, root).value;
    var pushes := PushActions(contentTypeOf, PushList(root, d.children), firstFd + 1);
    var primary := Primary(tree, root + [IndexFile], Render(root + [IndexFile]), contentTypeOf, firstFd);
    assert (primary + pushes)[2..] == pushes;
    LookupWellFormed(tree, root);
    PushListExactly(root, d.children, p);
    PushListDistinct(root, d.children);
  }

  /** Unlike the eager example server, this handler also pushes `index.html` itself. */
  lemma Http2PushesEntryDocumentToo(tree: Entry, root: Path, contentTypeOf: string -> string, firstFd: nat)
    requires IsNormal(root) && WellFormed(tree)
    requires IsReadable(tree, root)
    requires IsReadable(tree, root + [IndexFile]) && Lookup(tree, root + [IndexFile]).value.File?
    ensures var o := Http2Outcome(tree, root, contentTypeOf, EntryDocument, firstFd);
            exists k :: 2 <= k < |o.sent| && o.sent[k].PushStream? && o.sent[k].path == Render(root + [IndexFile])
  {
    Http2EntryOutcome(tree, root, contentTypeOf, firstFd);
    var d := Lookup(tree, root).value;
    LookupWellFormed(tree, root);
    var p := root + [IndexFile];
    LookupExtend(tree, root, IndexFile);
    assert p[..|root|] == root && p[|root|..] == [IndexFile];
    PushListExactly(root, d.children, p);
    var pushed := PushList(root, d.children);
    var k :| 0 <= k < |pushed| && PathsOf(pushed)[k] == p;
    var pushes := PushActions(contentTypeOf, pushed, firstFd + 1);
    var o := Http2Outcome(tree, root, contentTypeOf, EntryDocument, firstFd);
    PushActionsAt(contentTypeOf, pushed, firstFd + 1, k);
    assert o.sent[2 + k] == pushes[k];
    assert pushed[k].path == p;
  }

  /** Any request path other than `/index.html` issues no push at all. */
  lemma Http2PushOnlyForEntryDocument(tree: Entry, root: Path, contentTypeOf: string -> string, requestPath: string, firstFd: nat)
    requires IsNormal(root)
    ensures var o := Http2Outcome(tree, root, contentTypeOf, requestPath, firstFd);
            (exists k :: 0 <= k < |o.sent| && o.sent[k].PushStream?) ==>
              requestPath == EntryDocument && TargetReadable(tree, root, requestPath)
  {
    var o := Http2Outcome(tree, root, contentTypeOf, requestPath, firstFd);
    if requestPath != EntryDocument && TargetReadable(tree, root, requestPath) {
      assert o.sent == Primary(tree, Target(root, requestPath), JoinText(root, requestPath), contentTypeOf, firstFd) + [];
    }
  }

  /**
   * The primary response streams the descriptor opened on the requested
   * path, and registers the close of that same descriptor; no pushed
   * descriptor gets a close registered.
   */
  lemma Http2PrimaryClosesItsFd(tree: Entry, root: Path, contentTypeOf: string -> string, requestPath: string, firstFd: nat)
    requires IsNormal(root)
    requires TargetReadable(tree, root, requestPath)
    ensures var o := Http2Outcome(tree, root, contentTypeOf, requestPath, firstFd);
            && o.openedPaths[0] == Target(root, requestPath)
            && o.sent[0] == CloseFdOnStreamClose(firstFd)
            && o.sent[1].RespondWithFd? && o.sent[1].fd == firstFd
            && forall k :: 1 <= k < |o.sent| ==> !o.sent[k].CloseFdOnStreamClose?
  {
    var o := Http2Outcome(tree, root, contentTypeOf, requestPath, firstFd);
    var primary := Primary(tree, Target(root, requestPath), JoinText(root, requestPath), contentTypeOf, firstFd);
    var pushes := PushActions(contentTypeOf, Pushed(tree, root, requestPath), firstFd + 1);
    forall k | 2 <= k < |o.sent|
      ensures !o.sent[k].CloseFdOnStreamClose?
    {
      assert o.sent[k] == pushes[k - 2];
    }
  }

  // ---------------------------------------------------------------------
  // The handlers
  // ---------------------------------------------------------------------

  /** `FileServer`: serves a file by reading it whole (HTTP/1). */
  class FileServer {
    const root: Path
    const fs: FilePort
    const contentTypeOf: string -> string

    ghost predicate Valid()
    {
      IsNormal(root)
    }

    /** The root is `resolve(opts.root)` against the working directory. */
    constructor (optsRoot: string, cwd: Path, fs: FilePort, contentTypeOf: string -> string)
      requires IsNormal(cwd)
      ensures Valid() && root == ResolvePath(cwd, optsRoot)
      ensures this.fs == fs && this.contentTypeOf == contentTypeOf
    {
      root := ResolvePath(cwd, optsRoot);
      this.fs := fs;
      this.contentTypeOf := contentTypeOf;
    }

    /**
     * Ignores a request and response that are not both HTTP/1; otherwise
     * answers with the file or with 404, and ends the context, unless
     * reading the file rejects.
     */
    method HandleRequest(context: HttpContext) returns (rejected: bool)
      requires Valid()
      modifies context
      ensures !(context.request.transport == Http1 && context.response == Http1) ==>
                !rejected && unchanged(context)
      ensures context.request.transport == Http1 && context.response == Http1 ==>
                var o := PlainOutcome(fs.tree, root, contentTypeOf, context.request.path);
                && rejected == o.rejected
                && context.sent == old(context.sent) + o.sent
                && context.state == if rejected then old(context.state) else End
    {
      if !(context.request.transport == Http1 && context.response == Http1) {
        return false;
      }
      var path := Target(root, context.request.path);
      if IsReadableAt(fs.tree, path, KeepsTrailingSeparator(context.request.path)) {
        var file := Lookup(fs.tree, path).value;
        if file.Dir? {
          return true;
        }
        var content := file.content;
        var contentType := contentTypeOf(JoinText(root, context.request.path));
        context.sent := context.sent + [WriteHead(StatusOk, map["Content-Type" := contentType])];
        context.sent := context.sent + [EndResponse(content)];
      } else {
        context.sent := context.sent + [WriteHead(StatusNotFound, map[])];
        context.sent := context.sent + [EndResponse("")];
      }
      context.state := End;
      rejected := false;
    }
  }

  /** `Http2FileServer`: serves from a descriptor and pushes on `/index.html`. */
  class Http2FileServer {
    const root: Path
    const fs: FilePort
    const contentTypeOf: string -> string

    ghost predicate Valid()
    {
      IsNormal(root) && WellFormed(fs.tree)
    }

    constructor (optsRoot: string, cwd: Path, fs: FilePort, contentTypeOf: string -> string)
      requires IsNormal(cwd) && WellFormed(fs.tree)
      ensures Valid() && root == ResolvePath(cwd, optsRoot)
      ensures this.fs == fs && this.contentTypeOf == contentTypeOf
    {
      root := ResolvePath(cwd, optsRoot);
      this.fs := fs;
      this.contentTypeOf := contentTypeOf;
    }

    /**
     * Ignores a request and response that are not both HTTP/2; otherwise
     * does what `Http2Outcome` says, and ends the context unless the push
     * walk could not list the root.
     */
    method HandleRequest(context: HttpContext) returns (rejected: bool)
      requires Valid()
      modifies context, fs
      ensures !(context.request.transport == Http2 && context.response == Http2) ==>
                !rejected && unchanged(context) && unchanged(fs)
      ensures context.request.transport == Http2 && context.response == Http2 ==>
                var o := Http2Outcome(fs.tree, root, contentTypeOf, context.request.path, |old(fs.descriptors)|);
                && rejected == o.rejected
                && context.sent == old(context.sent) + o.sent
                && fs.descriptors == old(fs.descriptors) + o.openedPaths
                && context.state == if rejected then old(context.state) else End
    {
      if !(context.request.transport == Http2 && context.response == Http2) {
        return false;
      }
      var parsedPath := context.request.path;
      var path := Target(root, parsedPath);
      var trailing := KeepsTrailingSeparator(parsedPath);
      if IsReadableAt(fs.tree, path, trailing) {
        ghost var primary := Primary(fs.tree, path, JoinText(root, parsedPath), contentTypeOf, |fs.descriptors|);
        var fd, headers := GetFile(path, trailing);
        context.sent := context.sent + [CloseFdOnStreamClose(fd)];
        context.sent := context.sent + [RespondWithFd(fd, headers)];
        assert context.sent == old(context.sent) + primary;
        if parsedPath == EntryDocument {
          EntryTarget(root);
          ParentIsDir(fs.tree, root, IndexFile);
          var listed := PushRoot(context);
          if !listed {
            assert context.sent == old(context.sent) + (primary + []);
            return true;
          }
          ghost var pushed := Pushed(fs.tree, root, parsedPath);
          AppendAssoc(old(context.sent), primary, PushActions(contentTypeOf, pushed, |old(fs.descriptors)| + 1));
          AppendAssoc(old(fs.descriptors), [path], PathsOf(pushed));
        } else {
          assert context.sent == old(context.sent) + (primary + []);
          assert fs.descriptors == old(fs.descriptors) + ([path] + []);
        }
      } else {
        context.sent := context.sent + NotFound();
      }
      context.state := End;
      rejected := false;
    }

    /**
     * `getFile`: opens the text of `path` (with a separator at the end when
     * `trailing`) and builds its headers from `statSync` and that text.
     */
    method GetFile(path: Path, trailing: bool) returns (fd: nat, headers: Headers)
      requires IsReadableAt(fs.tree, path, trailing)
      modifies fs`descriptors
      ensures fd == |old(fs.descriptors)| && fs.descriptors == old(fs.descriptors) + [path]
      ensures headers.status == Some(StatusOk)
      ensures headers.contentLength == Lookup(fs.tree, path).value.size
      ensures headers.lastModified == Lookup(fs.tree, path).value.mtime
      ensures headers.contentType == Some(contentTypeOf(PathText(path, trailing)))
    {
      var ok;
      ok, fd := fs.OpenSync(path, trailing);
      var stat := Lookup(fs.tree, path).value;
      headers := Headers(Some(StatusOk), stat.size, stat.mtime, Some(contentTypeOf(PathText(path, trailing))));
    }

    /** `pushAll(stream)`: the walk starts at the server's root. */
    method PushRoot(context: HttpContext) returns (listed: bool)
      requires Valid() && Lookup(fs.tree, root).Some? && Lookup(fs.tree, root).value.Dir?
      modifies context`sent, fs`descriptors
      ensures listed == Listable(fs.tree, root)
      ensures context.sent == old(context.sent) + PushActions(contentTypeOf, Pushed(fs.tree, root, EntryDocument), |old(fs.descriptors)|)
      ensures fs.descriptors == old(fs.descriptors) + PathsOf(Pushed(fs.tree, root, EntryDocument))
    {
      var d := Lookup(fs.tree, root).value;
      listed := PushAll(context, root, d);
      if !listed {
        assert context.sent == old(context.sent) + [];
        assert fs.descriptors == old(fs.descriptors) + [];
      }
    }

    /**
     * `pushAll(stream, dir)`: lists `dir` (failing if it is unreadable) and
     * pushes its readable files, recursing into its readable directories.
     */
    method PushAll(context: HttpContext, dir: Path, ghost d: Entry) returns (listed: bool)
      requires Valid() && IsNormal(dir)
      requires Lookup(fs.tree, dir) == Some(d) && d.Dir?
      modifies context`sent, fs`descriptors
      decreases d, 3
      ensures listed == d.readable
      ensures listed ==> context.sent == old(context.sent) + PushActions(contentTypeOf, PushList(dir, d.children), |old(fs.descriptors)|)
      ensures listed ==> fs.descriptors == old(fs.descriptors) + PathsOf(PushList(dir, d.children))
      ensures !listed ==> context.sent == old(context.sent) && fs.descriptors == old(fs.descriptors)
    {
      if !IsReadable(fs.tree, dir) {
        return false;
      }
      var names := Readdir(fs.tree, dir);
      PushNames(context, dir, names, d);
      listed := true;
    }

    /** The loop of `pushAll` over the listing `names` of the readable directory `dir`. */
    method PushNames(context: HttpContext, dir: Path, names: seq<string>, ghost d: Entry)
      requires Valid() && IsNormal(dir)
      requires Lookup(fs.tree, dir) == Some(d) && d.Dir? && names == Names(d.children)
      modifies context`sent, fs`descriptors
      decreases d, 2
      ensures context.sent == old(context.sent) + PushActions(contentTypeOf, PushList(dir, d.children), |old(fs.descriptors)|)
      ensures fs.descriptors == old(fs.descriptors) + PathsOf(PushList(dir, d.children))
    {
      ghost var firstFd := |fs.descriptors|;
      var i := 0;
      while i < |names|
        invariant 0 <= i <= |names|
        invariant context.sent == old(context.sent) + PushActions(contentTypeOf, PushList(dir, d.children[..i]), firstFd)
        invariant fs.descriptors == old(fs.descriptors) + PathsOf(PushList(dir, d.children[..i]))
      {
        PushNext(context, dir, names, d, i, firstFd, old(context.sent), old(fs.descriptors));
        i := i + 1;
      }
      assert d.children[..i] == d.children;
    }

    /** One turn of the loop of `pushAll`: the pushes for name `i` follow those for the names before it. */
    method PushNext(context: HttpContext, dir: Path, names: seq<string>, ghost d: Entry, i: nat,
                    ghost firstFd: nat, ghost sent0: seq<Action>, ghost descriptors0: seq<Path>)
      requires Valid() && IsNormal(dir)
      requires Lookup(fs.tree, dir) == Some(d) && d.Dir? && names == Names(d.children) && i < |names|
      requires |descriptors0| == firstFd
      requires context.sent == sent0 + PushActions(contentTypeOf, PushList(dir, d.children[..i]), firstFd)
      requires fs.descriptors == descriptors0 + PathsOf(PushList(dir, d.children[..i]))
      modifies context`sent, fs`descriptors
      decreases d, 1
      ensures context.sent == sent0 + PushActions(contentTypeOf, PushList(dir, d.children[..i + 1]), firstFd)
      ensures fs.descriptors == descriptors0 + PathsOf(PushList(dir, d.children[..i + 1]))
    {
      ghost var sent := context.sent;
      ghost var descriptors := fs.descriptors;
      assert |descriptors| == firstFd + |PushList(dir, d.children[..i])|;
      PushChild(context, dir, names[i], d, i);
      SentStep(contentTypeOf, sent0, dir, d.children, i, firstFd, sent, context.sent);
      DescriptorsStep(descriptors0, dir, d.children, i, descriptors, fs.descriptors);
    }

    /** One listed name of `dir`: a readable file is pushed, a readable directory walked. */
    method PushChild(context: HttpContext, dir: Path, name: string, ghost d: Entry, ghost i: nat)
      requires Valid() && IsNormal(dir)
      requires Lookup(fs.tree, dir) == Some(d) && d.Dir? && i < |d.children| && name == d.children[i].name
      modifies context`sent, fs`descriptors
      decreases d, 0
      ensures context.sent == old(context.sent) + PushActions(contentTypeOf, PushEntry(dir, d.children[i]), |old(fs.descriptors)|)
      ensures fs.descriptors == old(fs.descriptors) + PathsOf(PushEntry(dir, d.children[i]))
    {
      ghost var c := d.children[i];
      LookupChild(fs.tree, dir, d, i);
      JoinName(dir, name);
      var path := JoinPath(dir, name);
      if IsReadable(fs.tree, path) {
        if Lookup(fs.tree, path).value.File? {
          Push(context, path);
          assert PushEntry(dir, c) == [Found(path, c)];
        } else {
          var _ := PushAll(context, path, c);
        }
      } else {
        assert PushEntry(dir, c) == [];
      }
    }

    /** `push(stream, filePath)`: `:path` is the joined file-system path. */
    method Push(context: HttpContext, filePath: Path)
      requires IsReadable(fs.tree, filePath)
      modifies context`sent, fs`descriptors
      ensures context.sent == old(context.sent) +
        [PushStream(Render(filePath), |old(fs.descriptors)|, HeadersOf(Lookup(fs.tree, filePath).value, contentTypeOf(Render(filePath))))]
      ensures fs.descriptors == old(fs.descriptors) + [filePath]
    {
      var fd, headers := GetFile(filePath, false);
      var pushHeaders := Render(filePath);
      context.sent := context.sent + [PushStream(pushHeaders, fd, headers)];
    }
  }
}
