/**
 * Where the two push servers part ways: the `Http2FileServer` handler of
 * the runtime package and the eager example server in `server.js`. Both
 * walk the same tree, but they differ in what fails, what is excluded, the
 * `:path` pseudo-header of a push (section 8.1.2.3 of RFC 7540) and the
 * status of a missing file.
 */
module PushVariants {
  import opened Common
  import opened Paths
  import opened FileSystem
  import opened Http
  import opened FileServer
  import opened VanillaServer

  /**
   * The eager server skips every cached file whose name ends with
   * `index.html`, in any directory, and not only the entry document:
   * `myindex.html` is skipped too.
   */
  lemma IndexNamesExcluded(dir: Path, name: string)
    requires EndsWith(name, IndexFile)
    ensures Excluded(dir + [name])
  {
    JoinEndsWithLast(dir, name);
    var r := Render(dir + [name]);
    var j := JoinWith(dir + [name], '/');
    assert r == "/" + j;
    assert r[|r| - |IndexFile|..] == j[|j| - |IndexFile|..];
    assert j[|j| - |IndexFile|..] == j[|j| - |name|..][|name| - |IndexFile|..];
  }

  /** `myindex.html` is one such name. */
  lemma MyIndexExcluded(dir: Path)
    ensures Excluded(dir + ["myindex.html"])
  {
    assert "myindex.html"[12 - |IndexFile|..] == IndexFile;
    IndexNamesExcluded(dir, "myindex.html");
  }

  /**
   * The entry document itself: `Http2FileServer` pushes `root/index.html`
   * alongside the answer to it (`Http2PushesEntryDocumentToo`), while no
   * push of the eager server carries the `:path` `/index.html` once its
   * cache keys lie below the root.
   */
  lemma VanillaNeverPushesEntryDocument(root: Path, m: FdMap, a: Action)
    requires IsNormal(root)
    requires forall j :: 0 <= j < |m| ==> IsNormal(m[j].0) && Below(root, m[j].0)
    requires a in Pushes(root, m)
    ensures a.PushStream? && a.path != EntryDocument
  {
    PushesExactly(root, m, a);
    var j :| 0 <= j < |m| && !Excluded(m[j].0) && a == PushFor(root, m[j]);
    if a.path == EntryDocument {
      assert Render([IndexFile]) == EntryDocument;
      RelativeAgrees(root, m[j].0, [IndexFile]);
      EndsWithSelf(IndexFile);
      IndexNamesExcluded(root, IndexFile);
      assert false;
    }
  }

  lemma EndsWithSelf(s: string)
    ensures EndsWith(s, s)
  {
    assert s[|s| - |s|..] == s;
  }

  /**
   * Two pushes with the same relative `:path` name the same file when
   * both lie below the root; so an excluded path cannot come back under
   * another key.
   */
  lemma RelativeAgrees(root: Path, p: Path, rel: Path)
    requires IsNormal(root) && IsNormal(p) && IsNormal(rel) && rel != []
    requires Render(Relative(root, p)) == Render(rel)
    requires Below(root, p)
    ensures p == root + rel
  {
    assert p == root + p[|root|..];
    RelativeBelow(root, p[|root|..]);
    assert IsNormal(p[|root|..]) by {
      forall k | 0 <= k < |p[|root|..]|
        ensures IsName(p[|root|..][k])
      {
        assert p[|root|..][k] == p[|root| + k];
      }
    }
    RenderInjective(p[|root|..], rel);
  }

  /**
   * The `:path` of a push for the file `root + rel`: `Http2FileServer`
   * sends the joined file-system path, the eager server `/` and the path
   * relative to the root. They agree only when the root is `/` itself.
   */
  lemma PushPathFormats(root: Path, rel: Path)
    requires IsNormal(root) && IsNormal(rel) && rel != []
    ensures Render(Relative(root, root + rel)) == Render(rel)
    ensures Render(root + rel) == Render(rel) <==> root == []
  {
    RelativeBelow(root, rel);
    if Render(root + rel) == Render(rel) {
      assert IsNormal(root + rel) by {
        forall k | 0 <= k < |root + rel|
          ensures IsName((root + rel)[k])
        {
          if k < |root| {
            assert (root + rel)[k] == root[k];
          } else {
            assert (root + rel)[k] == rel[k - |root|];
          }
        }
      }
      RenderInjective(root + rel, rel);
      assert |root + rel| == |rel|;
    }
    if root == [] {
      assert root + rel == rel;
    }
  }

  /**
   * A file that cannot be served: `Http2FileServer` answers 404, the eager
   * server (whose cache lacks it) answers 400; both with an empty body.
   */
  lemma MissingFileStatus(tree: Entry, root: Path, contentTypeOf: string -> string, requestPath: string, firstFd: nat, m: FdMap)
    requires IsNormal(root)
    requires KeysArePaths(m)
    requires !TargetReadable(tree, root, requestPath)
    requires KeepsTrailingSeparator(requestPath) || JoinPath(root, requestPath) !in Keys(m)
    ensures Http2Outcome(tree, root, contentTypeOf, requestPath, firstFd).sent == [WriteHead(StatusNotFound, map[]), EndResponse("")]
    ensures Response(m, root, requestPath) == [WriteHead(StatusBadRequest, map[]), EndResponse("")]
  {
    NotCachedIsBadRequest(m, root, requestPath);
  }

  /**
   * On a tree the eager server can start on, its cache holds exactly the
   * files `Http2FileServer` pushes for `/index.html`, in the same order.
   */
  lemma SameFilesWhenSound(tree: Entry, root: Path, firstFd: nat)
    requires IsNormal(root) && WellFormed(tree)
    requires Lookup(tree, root).Some? && Lookup(tree, root).value.Dir? && Sound(Lookup(tree, root).value)
    ensures Listable(tree, root)
    ensures Keys(SetAll([], Files(root, Lookup(tree, root).value.children), firstFd)) == PathsOf(Pushed(tree, root, EntryDocument))
  {
    StartupKeys(tree, root, firstFd, root);
  }
}
