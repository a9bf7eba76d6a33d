/**
 * The decisions `DevServer` takes around its I/O: the log level named on
 * the command line, the options it hands to the Node runtime, whether it
 * wipes the scratch directory, and the module specifier the generated
 * page imports.
 */
module DevServer {
  import opened Common
  import opened Paths
  import opened FileSystem
  import opened Configuration

  /** The name of each level in `IDevServerConfig.logLevel`. */
  function LevelName(level: LogLevel): string
  {
    match level
    case Trace => "trace"
    case Debug => "debug"
    case Info => "info"
    case Warn => "warn"
    case Error => "error"
    case Fatal => "fatal"
    case Off => "none"
  }

  /** `getLogLevel`: the level of that name; `info` when absent or unknown. */
  function GetLogLevel(name: Option<string>): LogLevel
  {
    match name
    case None => Info
    case Some(s) =>
      if s == "trace" then Trace
      else if s == "debug" then Debug
      else if s == "info" then Info
      else if s == "warn" then Warn
      else if s == "error" then Error
      else if s == "fatal" then Fatal
      else if s == "none" then Off
      else Info
  }

  /** Each of the seven names maps back to its own level. */
  lemma GetLogLevelRoundTrip(level: LogLevel)
    ensures GetLogLevel(Some(LevelName(level))) == level
  {
    match level
    case Trace =>
    case Debug => assert "debug"[0] != "trace"[0];
    case Info => assert "info"[0] !in {'t', 'd'};
    case Warn => assert "warn"[0] !in {'t', 'd', 'i'};
    case Error => assert "error"[0] !in {'t', 'd', 'i', 'w'};
    case Fatal => assert "fatal"[0] !in {'t', 'd', 'i', 'w', 'e'};
    case Off => assert "none"[0] !in {'t', 'd', 'i', 'w', 'e', 'f'};
  }

  /** Any other input, and no input at all, gives `info`. */
  lemma GetLogLevelDefault(name: Option<string>)
    requires name.Some? ==> forall level :: name.value != LevelName(level)
    ensures GetLogLevel(name) == Info
  {
    if name.Some? {
      var s := name.value;
      assert s != LevelName(Trace) && s != LevelName(Debug) && s != LevelName(Info) && s != LevelName(Warn);
      assert s != LevelName(Error) && s != LevelName(Fatal) && s != LevelName(Off);
    }
  }

  /** Every level but `info` comes only from its own name. */
  lemma GetLogLevelNamed(name: Option<string>)
    ensures GetLogLevel(name) != Info ==> name == Some(LevelName(GetLogLevel(name)))
  {
  }

  /** `getNodeConfigurationOptions`: level, root and HTTP/2; no port, no host. */
  function GetNodeConfigurationOptions(logLevel: Option<string>, scratchDir: string): (o: PartialOptions)
  {
    PartialOptions(None, None, Some(scratchDir), Some(GetLogLevel(logLevel)), Some(true))
  }

  /**
   * The dev server serves its scratch directory over HTTP/2 with the
   * requested level, on the default host and port 8080, and so registers
   * `Http2Server` and `Http2FileServer`.
   */
  lemma DevServerOptions(logLevel: Option<string>, scratchDir: string)
    ensures Merge(GetNodeConfigurationOptions(logLevel, scratchDir))
      == Options("0.0.0.0", 8080, scratchDir, GetLogLevel(logLevel), true)
    ensures ImplsFor(Registrations(Create(GetNodeConfigurationOptions(logLevel, scratchDir)).opts), HttpServerKey) == {Http2Server}
    ensures ImplsFor(Registrations(Create(GetNodeConfigurationOptions(logLevel, scratchDir)).opts), RequestHandlerKey) == {Http2FileServer}
  {
    ServerSelection(Merge(GetNodeConfigurationOptions(logLevel, scratchDir)));
  }

  // ---------------------------------------------------------------------
  // Wiping the scratch directory
  // ---------------------------------------------------------------------

  /** `q` is `p` or lies below it. */
  predicate Within(q: Path, p: Path)
  {
    |p| <= |q| && q[..|p|] == p
  }

  /**
   * `rimraf(p)`: the entry at `p` and everything below it are removed.
   * The root of the file system cannot itself be removed: `rimraf` on it
   * empties it.
   */
  function Rimraf(e: Entry, p: Path): (r: Entry)
    ensures r.name == e.name
    decreases |p|, 1, 0
  {
    if p == [] then (if e.Dir? then e.(children := []) else e)
    else match e
      case File(_, _, _, _, _) => e
      case Dir(_, _, _, _, children) => e.(children := RimrafIn(children, p))
  }

  /** `rimraf` below a directory listing `children`: the first entry named `p[0]` is removed, or walked into. */
  function RimrafIn(children: seq<Entry>, p: Path): seq<Entry>
    requires p != []
    decreases |p|, 0, |children|
  {
    if children == [] then []
    else if children[0].name == p[0] then
      (if |p| == 1 then children[1..] else [Rimraf(children[0], p[1..])] + children[1..])
    else [children[0]] + RimrafIn(children[1..], p)
  }

  /**
   * Lines 58-60: the tree after the wipe step. The directory is removed
   * when `isReadable(scratchDir)` holds and `wipeScratchDir` is true; an
   * absent flag counts as false.
   */
  function WipeScratchDir(tree: Entry, scratchDir: Path, wipeScratchDir: Option<bool>): Entry
  {
    if IsReadable(tree, scratchDir) && wipeScratchDir == Some(true) then Rimraf(tree, scratchDir) else tree
  }

  lemma WithinTail(q: Path, p: Path)
    requires q != [] && p != [] && q[0] == p[0]
    ensures Within(q, p) <==> Within(q[1..], p[1..])
  {
    if Within(q[1..], p[1..]) {
      assert q[..|p|] == [q[0]] + q[1..][..|p| - 1];
      assert p == [p[0]] + p[1..];
    }
    if Within(q, p) {
      assert q[1..][..|p| - 1] == q[..|p|][1..];
    }
  }

  /** The empty path is above everything; a one-name path is above every path that starts with that name. */
  lemma WithinShort(q: Path, p: Path)
    ensures Within(q, [])
    ensures |p| == 1 && q != [] && q[0] == p[0] ==> Within(q, p)
  {
    assert q[..0] == [];
    if |p| == 1 && q != [] && q[0] == p[0] {
      assert q[..1] == [q[0]];
    }
  }

  lemma DistinctTail(children: seq<Entry>)
    requires children != [] && DistinctNames(children)
    ensures DistinctNames(children[1..])
    ensures forall k :: 0 <= k < |children[1..]| ==> children[1..][k].name != children[0].name
  {
    forall i, j | 0 <= i < j < |children[1..]|
      ensures children[1..][i].name != children[1..][j].name
    {
      assert children[1..][i] == children[i + 1] && children[1..][j] == children[j + 1];
    }
    forall k | 0 <= k < |children[1..]|
      ensures children[1..][k].name != children[0].name
    {
      assert children[1..][k] == children[k + 1];
    }
  }

  /** What a lookup of one name finds in a listing after `rimraf`. */
  lemma {:induction false} RimrafInChild(children: seq<Entry>, p: Path, name: string)
    requires p != [] && DistinctNames(children)
    ensures name != p[0] ==> Child(RimrafIn(children, p), name) == Child(children, name)
    ensures |p| == 1 ==> Child(RimrafIn(children, p), p[0]) == None
    ensures |p| > 1 ==>
              Child(RimrafIn(children, p), p[0]) ==
              (match Child(children, p[0])
               case None => None
               case Some(c) => Some(Rimraf(c, p[1..])))
  {
    if children != [] {
      var c0 := children[0];
      var tail := children[1..];
      DistinctTail(children);
      var r := RimrafIn(children, p);
      if c0.name == p[0] {
        if |p| == 1 {
          assert r == tail;
        } else {
          assert r == [Rimraf(c0, p[1..])] + tail;
          assert r[1..] == tail;
        }
      } else {
        RimrafInChild(tail, p, name);
        RimrafInChild(tail, p, p[0]);
        assert r == [c0] + RimrafIn(tail, p);
        assert r[1..] == RimrafIn(tail, p);
      }
    }
  }

  /** After `rimraf(p)` nothing is found at `p`. */
  lemma {:induction false} RimrafGone(e: Entry, p: Path)
    requires WellFormed(e) && p != []
    ensures Lookup(Rimraf(e, p), p) == None
    decreases |p|
  {
    if e.Dir? {
      RimrafInChild(e.children, p, p[0]);
      if |p| > 1 && Child(e.children, p[0]).Some? {
        var c := Child(e.children, p[0]).value;
        var k :| 0 <= k < |e.children| && e.children[k] == c;
        RimrafGone(c, p[1..]);
      }
    }
  }

  /** `rimraf(p)` leaves every path that is neither at or below `p`, nor above it, as it was. */
  lemma {:induction false} RimrafOther(e: Entry, p: Path, q: Path)
    requires WellFormed(e) && p != []
    requires !Within(q, p) && !Within(p, q)
    ensures Lookup(Rimraf(e, p), q) == Lookup(e, q)
    decreases |p|
  {
    WithinShort(q, p);
    WithinShort(p, q);
    if e.Dir? {
      RimrafInChild(e.children, p, q[0]);
      if q[0] == p[0] {
        if Child(e.children, p[0]).Some? {
          var c := Child(e.children, p[0]).value;
          var k :| 0 <= k < |e.children| && e.children[k] == c;
          WithinTail(q, p);
          WithinTail(p, q);
          RimrafOther(c, p[1..], q[1..]);
        }
      }
    }
  }

  /** Nothing is found below a path at which nothing is found. */
  lemma {:induction false} LookupPrefixNone(e: Entry, p: Path, q: Path)
    requires Lookup(e, p) == None && Within(q, p)
    ensures Lookup(e, q) == None
    decreases |p|
  {
    if p != [] && e.Dir? {
      assert q[0] == q[..|p|][0];
      match Child(e.children, p[0])
      case None =>
      case Some(c) =>
        WithinTail(q, p);
        LookupPrefixNone(c, p[1..], q[1..]);
    }
  }

  /**
   * The wipe step removes the scratch directory and everything below it
   * exactly when the directory is readable and `wipeScratchDir` is true;
   * otherwise the tree is unchanged. Either way every path that is neither
   * within the scratch directory nor above it is looked up as before.
   */
  lemma WipeOnlyWhenAsked(tree: Entry, scratchDir: Path, wipeScratchDir: Option<bool>)
    requires WellFormed(tree)
    ensures !(IsReadable(tree, scratchDir) && wipeScratchDir == Some(true)) ==>
              WipeScratchDir(tree, scratchDir, wipeScratchDir) == tree
    ensures IsReadable(tree, scratchDir) && wipeScratchDir == Some(true) ==>
              forall q :: q != [] && Within(q, scratchDir) ==> Lookup(WipeScratchDir(tree, scratchDir, wipeScratchDir), q) == None
    ensures forall q :: !Within(q, scratchDir) && !Within(scratchDir, q) ==>
              Lookup(WipeScratchDir(tree, scratchDir, wipeScratchDir), q) == Lookup(tree, q)
  {
    var r := WipeScratchDir(tree, scratchDir, wipeScratchDir);
    if IsReadable(tree, scratchDir) && wipeScratchDir == Some(true) && scratchDir != [] {
      RimrafGone(tree, scratchDir);
      forall q | q != [] && Within(q, scratchDir)
        ensures Lookup(r, q) == None
      {
        LookupPrefixNone(r, scratchDir, q);
      }
      forall q | !Within(q, scratchDir) && !Within(scratchDir, q)
        ensures Lookup(r, q) == Lookup(tree, q)
      {
        RimrafOther(tree, scratchDir, q);
      }
    }
  }

  // ---------------------------------------------------------------------
  // The import specifier of the generated page
  // ---------------------------------------------------------------------

  /** `replace(/\.ts$/, '.js')`: only a `.ts` at the very end becomes `.js`. */
  function TsToJs(s: string): (r: string)
  {
    if EndsWith(s, ".ts") then s[..|s| - 3] + ".js" else s
  }

  /** The specifier: `'.'`, then the entry file without the first `lastCommonRootDir`, `.ts` made `.js`. */
  function ImportSpecifier(entryFile: string, lastCommonRootDir: string): string
  {
    "." + TsToJs(ReplaceFirst(entryFile, lastCommonRootDir, ""))
  }

  /**
   * Only a trailing `.ts` changes: the result has the same length, the
   * same text before the extension, and ends in `.js` exactly when the
   * input ends in `.ts` or already ended in `.js`.
   */
  lemma TsToJsSpec(s: string)
    ensures |TsToJs(s)| == |s|
    ensures EndsWith(s, ".ts") ==> TsToJs(s) == s[..|s| - 3] + ".js"
    ensures !EndsWith(s, ".ts") ==> TsToJs(s) == s
    ensures EndsWith(TsToJs(s), ".js") <==> EndsWith(s, ".ts") || EndsWith(s, ".js")
  {
    if EndsWith(s, ".ts") {
      var r := s[..|s| - 3] + ".js";
      assert r[|r| - 3..] == ".js";
      assert !EndsWith(s, ".js") by {
        assert s[|s| - 1] == 's';
      }
    }
  }

  /**
   * An entry file below the common root is imported by its path relative
   * to that root, from the directory of the page.
   */
  lemma ImportBelowRoot(root: string, rel: string)
    ensures ImportSpecifier(root + rel, root) == "." + TsToJs(rel)
  {
    var s := root + rel;
    assert OccursAt(s, root, 0) by {
      assert s[0..0 + |root|] == root;
    }
    assert IndexOf(s, root) == Some(0);
    assert ReplaceFirst(s, root, "") == s[..0] + "" + s[0 + |root|..];
    assert s[..0] + "" + s[0 + |root|..] == rel;
  }

  /** An entry file in which the root does not occur keeps its whole path. */
  lemma ImportOutsideRoot(entryFile: string, root: string)
    requires forall i :: 0 <= i <= |entryFile| ==> !OccursAt(entryFile, root, i)
    ensures ImportSpecifier(entryFile, root) == "." + TsToJs(entryFile)
  {
    IndexOfSpec(entryFile, root);
  }
}
