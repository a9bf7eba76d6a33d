/**
 * The file-system port the servers use: a snapshot of the directory tree
 * (names, read permission, size, modification time, contents) and the
 * descriptors opened on it.
 */
module FileSystem {
  import opened Common
  import opened Paths

  /**
   * A directory entry. `readable` is read access (`R_OK`); a directory's
   * `children` are listed in the order `readdirSync` returns them.
   */
  datatype Entry =
    | File(name: string, readable: bool, size: nat, mtime: string, content: string)
    | Dir(name: string, readable: bool, size: nat, mtime: string, children: seq<Entry>)

  /** The first entry of `children` with the given name. */
  function Child(children: seq<Entry>, name: string): (r: Option<Entry>)
    ensures r.Some? ==> r.value in children && r.value.name == name
    ensures r.None? ==> forall k :: 0 <= k < |children| ==> children[k].name != name
  {
    if children == [] then None
    else if children[0].name == name then Some(children[0])
    else Child(children[1..], name)
  }

  /** The entry at path `p` below `e`, if any. */
  function Lookup(e: Entry, p: Path): Option<Entry>
    decreases |p|
  {
    if p == [] then Some(e)
    else match e
      case File(_, _, _, _, _) => None
      case Dir(_, _, _, _, children) =>
        match Child(children, p[0])
        case None => None
        case Some(c) => Lookup(c, p[1..])
  }

  /** `readdirSync`: the names in a directory, in listing order. */
  function Names(children: seq<Entry>): (r: seq<string>)
    ensures |r| == |children|
    ensures forall k :: 0 <= k < |r| ==> r[k] == children[k].name
  {
    if children == [] then [] else [children[0].name] + Names(children[1..])
  }

  /** `readdirSync(p)` on a directory: one name per entry, in listing order. */
  function Readdir(tree: Entry, p: Path): (r: seq<string>)
    requires Lookup(tree, p).Some? && Lookup(tree, p).value.Dir?
    ensures |r| == |Lookup(tree, p).value.children|
    ensures forall k :: 0 <= k < |r| ==> r[k] == Lookup(tree, p).value.children[k].name
  {
    Names(Lookup(tree, p).value.children)
  }

  /** `isReadable` / `isReadableSync`: the path exists and may be read. */
  predicate IsReadable(tree: Entry, p: Path)
  {
    Lookup(tree, p).Some? && Lookup(tree, p).value.readable
  }

  /**
   * `isReadable` or `openSync` on the text of `p`, ending in a separator
   * when `trailing`: such a text resolves only to a directory (a regular
   * file fails with `ENOTDIR`).
   */
  predicate IsReadableAt(tree: Entry, p: Path, trailing: bool)
  {
    IsReadable(tree, p) && (trailing ==> Lookup(tree, p).value.Dir?)
  }

  ghost predicate DistinctNames(children: seq<Entry>)
  {
    forall i, j :: 0 <= i < j < |children| ==> children[i].name != children[j].name
  }

  /** A real directory tree: names are path segments, unique per directory. */
  ghost predicate WellFormed(e: Entry)
  {
    e.Dir? ==>
      DistinctNames(e.children) &&
      forall k :: 0 <= k < |e.children| ==> IsName(e.children[k].name) && WellFormed(e.children[k])
  }

  lemma {:induction false} ChildAt(children: seq<Entry>, k: nat)
    requires DistinctNames(children) && k < |children|
    ensures Child(children, children[k].name) == Some(children[k])
  {
    if k > 0 {
      assert children[0].name != children[k].name;
      assert children[1..][k - 1] == children[k];
      ChildAt(children[1..], k - 1);
    }
  }

  /** Looking up one more segment looks it up among the directory's children. */
  lemma {:induction false} LookupExtend(e: Entry, p: Path, name: string)
    ensures Lookup(e, p + [name]) ==
      match Lookup(e, p)
      case Some(Dir(_, _, _, _, children)) => Child(children, name)
      case _ => None
  {
    if p != [] {
      assert (p + [name])[0] == p[0];
      assert (p + [name])[1..] == p[1..] + [name];
      if e.Dir? {
        match Child(e.children, p[0])
        case None =>
        case Some(c) => LookupExtend(c, p[1..], name);
      }
    } else {
      assert [name][1..] == [];
      if e.Dir? {
        match Child(e.children, name)
        case None =>
        case Some(c) => assert Lookup(c, []) == Some(c);
      }
    }
  }

  lemma {:induction false} LookupWellFormed(e: Entry, p: Path)
    requires WellFormed(e) && Lookup(e, p).Some?
    ensures WellFormed(Lookup(e, p).value)
    decreases |p|
  {
    if p != [] {
      var c := Child(e.children, p[0]).value;
      var k :| 0 <= k < |e.children| && e.children[k] == c;
      LookupWellFormed(c, p[1..]);
    }
  }

  /** In a well-formed tree, `dir/name` of a listed child is that child. */
  lemma LookupChild(tree: Entry, dir: Path, d: Entry, k: nat)
    requires WellFormed(tree) && Lookup(tree, dir) == Some(d) && d.Dir? && k < |d.children|
    ensures Lookup(tree, dir + [d.children[k].name]) == Some(d.children[k])
    ensures IsName(d.children[k].name) && WellFormed(d.children[k])
  {
    LookupWellFormed(tree, dir);
    LookupExtend(tree, dir, d.children[k].name);
    ChildAt(d.children, k);
  }

  /** A path whose parent is not a directory does not exist. */
  lemma ParentIsDir(tree: Entry, dir: Path, name: string)
    requires Lookup(tree, dir + [name]).Some?
    ensures Lookup(tree, dir).Some? && Lookup(tree, dir).value.Dir?
  {
    LookupExtend(tree, dir, name);
  }

  /**
   * The descriptors the process has opened: descriptor `k` was opened on
   * `descriptors[k]`. Nothing in the modelled code closes a descriptor
   * synchronously.
   */
  class FilePort {
    const tree: Entry
    var descriptors: seq<Path>

    constructor (tree: Entry)
      ensures this.tree == tree && descriptors == []
    {
      this.tree := tree;
      descriptors := [];
    }

    /**
     * `openSync(path, 'r')` on the text of `p` (with a separator at the
     * end when `trailing`): fails unless that text resolves to a readable
     * entry.
     */
    method OpenSync(p: Path, trailing: bool) returns (ok: bool, fd: nat)
      modifies this`descriptors
      ensures ok == IsReadableAt(tree, p, trailing)
      ensures ok ==> fd == |old(descriptors)| && descriptors == old(descriptors) + [p]
      ensures !ok ==> descriptors == old(descriptors)
    {
      ok := IsReadable(tree, p) && (trailing ==> Lookup(tree, p).value.Dir?);
      fd := |descriptors|;
      if ok {
        descriptors := descriptors + [p];
      }
    }
  }
}
