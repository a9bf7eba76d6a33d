/**
 * POSIX paths as lists of segments, with the normalisation that Node's
 * `path.join`, `path.resolve` and `path.relative` perform.
 */
module Paths {
  import opened Common

  /** An absolute path as its segments: `[]` is `/`, `["a", "b"]` is `/a/b`. */
  type Path = seq<string>

  /** A segment a normalised path can hold. */
  predicate IsName(s: string)
  {
    s != "" && s != "." && s != ".." && '/' !in s
  }

  predicate IsNormal(p: Path)
  {
    forall k :: 0 <= k < |p| ==> IsName(p[k])
  }

  /** The text of an absolute path. */
  function Render(p: Path): string
  {
    "/" + JoinWith(p, '/')
  }

  /**
   * Appends raw `segments` to the normalised `base`, dropping empty and `.`
   * segments and letting `..` remove the last segment (never above `/`).
   */
  function Normalize(base: Path, segments: seq<string>): (r: Path)
    requires IsNormal(base)
    requires forall k :: 0 <= k < |segments| ==> '/' !in segments[k]
    ensures IsNormal(r)
    decreases |segments|
  {
    if segments == [] then base
    else
      var s := segments[0];
      if s == "" || s == "." then Normalize(base, segments[1..])
      else if s == ".." then Normalize(if base == [] then [] else base[..|base| - 1], segments[1..])
      else Normalize(base + [s], segments[1..])
  }

  /** `path.join(base, rel)` for a normalised absolute `base`. */
  function JoinPath(base: Path, rel: string): (r: Path)
    requires IsNormal(base)
    ensures IsNormal(r)
  {
    Normalize(base, Split(rel, '/'))
  }

  /**
   * `path.join` keeps a separator at the end of its result exactly when
   * the joined text ends in one, that is, when `rel` does.
   */
  predicate KeepsTrailingSeparator(rel: string)
  {
    rel != [] && rel[|rel| - 1] == '/'
  }

  /** The text of `p`, with a separator at the end when `trailing` (`/` keeps its only one). */
  function PathText(p: Path, trailing: bool): string
  {
    if trailing && p != [] then Render(p) + "/" else Render(p)
  }

  /** The text `path.join(base, rel)` returns. */
  function JoinText(base: Path, rel: string): string
    requires IsNormal(base)
  {
    PathText(JoinPath(base, rel), KeepsTrailingSeparator(rel))
  }

  /** `path.resolve(cwd, p)` for a normalised absolute `cwd`. */
  function ResolvePath(cwd: Path, p: string): (r: Path)
    requires IsNormal(cwd)
    ensures IsNormal(r)
  {
    if p != [] && p[0] == '/' then Normalize([], Split(p, '/')) else Normalize(cwd, Split(p, '/'))
  }

  /** The segments of `path.relative(from, to)`. */
  function Relative(from: Path, to: Path): seq<string>
  {
    if from != [] && to != [] && from[0] == to[0] then Relative(from[1..], to[1..])
    else seq(|from|, _ => "..") + to
  }

  /** Relative to a directory, a path below it is its own tail. */
  lemma {:induction false} RelativeBelow(root: Path, rel: Path)
    requires rel != []
    ensures Relative(root, root + rel) == rel
  {
    if root != [] {
      assert (root + rel)[1..] == root[1..] + rel;
      RelativeBelow(root[1..], rel);
    } else {
      assert root + rel == rel;
    }
  }

  /** Joining a plain name onto a normalised path appends it. */
  lemma JoinName(base: Path, name: string)
    requires IsNormal(base) && IsName(name)
    ensures JoinPath(base, name) == base + [name]
  {
    SplitNoSeparator(name, '/');
    assert Normalize(base, [name]) == Normalize(base + [name], []);
  }

  /** Joining `"/" + name` onto a normalised path appends that one segment. */
  lemma JoinRootedName(base: Path, name: string)
    requires IsNormal(base) && IsName(name)
    ensures JoinPath(base, "/" + name) == base + [name]
  {
    assert "/" + name == JoinWith(["", name], '/');
    SplitJoin(["", name], '/');
    assert Split("/" + name, '/') == ["", name];
    assert Normalize(base, ["", name]) == Normalize(base, [name]);
    assert Normalize(base, [name]) == Normalize(base + [name], []);
  }

  /** A normalised path is determined by its text. */
  lemma RenderInjective(p: Path, q: Path)
    requires IsNormal(p) && IsNormal(q)
    requires Render(p) == Render(q)
    ensures p == q
  {
    assert JoinWith(p, '/') == Render(p)[1..] == Render(q)[1..] == JoinWith(q, '/');
    JoinEmptyOnlyAtRoot(p);
    JoinEmptyOnlyAtRoot(q);
    if p != [] && q != [] {
      SplitJoin(p, '/');
      SplitJoin(q, '/');
    }
  }

  /** The joined text of a non-empty list ends with its last part. */
  lemma {:induction false} JoinEndsWithLast(p: seq<string>, x: string)
    ensures EndsWith(JoinWith(p + [x], '/'), x)
  {
    if p == [] {
      assert p + [x] == [x];
    } else {
      assert (p + [x])[1..] == p[1..] + [x];
      JoinEndsWithLast(p[1..], x);
      var tail := JoinWith(p[1..] + [x], '/');
      assert JoinWith(p + [x], '/') == (p[0] + ['/']) + tail;
      assert ((p[0] + ['/']) + tail)[|(p[0] + ['/']) + tail| - |x|..] == tail[|tail| - |x|..];
    }
  }

  /** The text of a normalised path other than `/` is longer than `/` and does not end in a separator. */
  lemma RenderEnd(p: Path)
    requires IsNormal(p) && p != []
    ensures |Render(p)| >= 2 && Render(p)[|Render(p)| - 1] != '/'
  {
    var x := p[|p| - 1];
    assert p == p[..|p| - 1] + [x];
    assert IsName(x);
    JoinEndsWithLast(p[..|p| - 1], x);
    var j := JoinWith(p, '/');
    assert j[|j| - |x|..] == x;
    assert j[|j| - 1] == x[|x| - 1];
    assert Render(p)[|Render(p)| - 1] == j[|j| - 1];
  }

  /**
   * The text `path.join` returns is the text of a path other than `/`
   * exactly when no separator is kept at its end and the joined path is
   * that path.
   */
  lemma JoinTextNames(base: Path, rel: string, q: Path)
    requires IsNormal(base) && IsNormal(q) && q != []
    ensures JoinText(base, rel) == Render(q) <==> !KeepsTrailingSeparator(rel) && JoinPath(base, rel) == q
  {
    var p := JoinPath(base, rel);
    RenderEnd(q);
    if KeepsTrailingSeparator(rel) {
      if p != [] {
        var t := Render(p) + "/";
        assert t[|t| - 1] == '/';
      } else {
        assert |JoinText(base, rel)| == 1;
      }
    } else if Render(p) == Render(q) {
      RenderInjective(p, q);
    }
  }

  lemma JoinEmptyOnlyAtRoot(p: Path)
    requires IsNormal(p)
    ensures JoinWith(p, '/') == "" ==> p == []
  {
    if |p| > 1 {
      assert JoinWith(p, '/') == p[0] + "/" + JoinWith(p[1..], '/');
    }
  }
}
