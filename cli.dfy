/**
 * `parseArgs` of the `au` command line: the first argument is the command
 * (`dev` or `test`), the rest must come in `--key value` pairs, keys are
 * normalised and looked up in a two-entry key map, and each value is
 * stored as a path resolved against the working directory.
 */
module Cli {
  import opened Common
  import opened Paths

  datatype Command = Dev | Test

  /** The fields of the parsed result a key can set. */
  datatype Field = EntryFile | ScratchDir

  /** The successful result: `cmd`, and the two paths (`''` when not given). */
  datatype ParsedArgs = ParsedArgs(cmd: Command, entryFile: string, scratchDir: string)

  /** The three errors `parseArgs` throws, with what each message reports. */
  datatype ArgsError =
    | Uneven(args: seq<string>)          // the arguments after the command
    | UnknownKey(key: string)            // the key after normalisation
    | UnknownCommand(cmd: Option<string>) // `None` for a missing command

  datatype Outcome = Parsed(args: ParsedArgs) | Failed(error: ArgsError)

  function CommandName(c: Command): string
  {
    match c
    case Dev => "dev"
    case Test => "test"
  }

  /** The `switch (cmd)` of `parseArgs`: only `dev` and `test` are commands. */
  function CommandOf(s: string): (r: Option<Command>)
    ensures r.Some? <==> s == "dev" || s == "test"
    ensures r.Some? ==> CommandName(r.value) == s
  {
    if s == "dev" then Some(Dev) else if s == "test" then Some(Test) else None
  }

  // ---------------------------------------------------------------------
  // Key normalisation: trim, remove every '-', lower-case
  // ---------------------------------------------------------------------

  /** The characters `String.prototype.trim` removes: white space and line terminators. */
  predicate IsTrimmed(c: char)
  {
    c == '\t' || c == '\n' || c == '\U{000B}' || c == '\U{000C}' || c == '\r' || c == ' '
    || c == '\U{00A0}' || c == '\U{1680}' || ('\U{2000}' <= c <= '\U{200A}')
    || c == '\U{2028}' || c == '\U{2029}' || c == '\U{202F}' || c == '\U{205F}'
    || c == '\U{3000}' || c == '\U{FEFF}'
  }

  /** Drops leading white space. */
  function TrimStart(s: string): string
  {
    if s != [] && IsTrimmed(s[0]) then TrimStart(s[1..]) else s
  }

  /** What `TrimStart` leaves is a suffix starting with a kept character, after white space only. */
  lemma {:induction false} TrimStartSpec(s: string)
    ensures var r := TrimStart(s);
            && |r| <= |s| && r == s[|s| - |r|..]
            && (forall k :: 0 <= k < |s| - |r| ==> IsTrimmed(s[k]))
            && (r == [] || !IsTrimmed(r[0]))
  {
    if s != [] && IsTrimmed(s[0]) {
      var t := s[1..];
      TrimStartSpec(t);
      var r := TrimStart(t);
      assert TrimStart(s) == r;
      assert t[|t| - |r|..] == s[|s| - |r|..];
      forall k | 0 <= k < |s| - |r|
        ensures IsTrimmed(s[k])
      {
        if k > 0 {
          assert s[k] == t[k - 1];
        }
      }
    }
  }

  /** Drops trailing white space. */
  function TrimEnd(s: string): string
  {
    if s != [] && IsTrimmed(s[|s| - 1]) then TrimEnd(s[..|s| - 1]) else s
  }

  /** What `TrimEnd` leaves is a prefix ending in a kept character, before white space only. */
  lemma {:induction false} TrimEndSpec(s: string)
    ensures var r := TrimEnd(s);
            && |r| <= |s| && r == s[..|r|]
            && (forall k :: |r| <= k < |s| ==> IsTrimmed(s[k]))
            && (r == [] || !IsTrimmed(r[|r| - 1]))
  {
    if s != [] && IsTrimmed(s[|s| - 1]) {
      var t := s[..|s| - 1];
      TrimEndSpec(t);
      var r := TrimEnd(t);
      assert TrimEnd(s) == r;
      assert t[..|r|] == s[..|r|];
      forall k | |r| <= k < |s|
        ensures IsTrimmed(s[k])
      {
        if k < |s| - 1 {
          assert s[k] == t[k];
        }
      }
    }
  }

  /** `String.prototype.trim`. */
  function Trim(s: string): string
  {
    TrimEnd(TrimStart(s))
  }

  /** `replace(/-/g, '')`: the string with every `-` removed. */
  function RemoveDashes(s: string): string
  {
    if s == [] then []
    else if s[0] == '-' then RemoveDashes(s[1..])
    else [s[0]] + RemoveDashes(s[1..])
  }

  /** No `-` is left, nothing else is added, and a string without `-` is unchanged. */
  lemma {:induction false} RemoveDashesSpec(s: string)
    ensures '-' !in RemoveDashes(s)
    ensures '-' !in s ==> RemoveDashes(s) == s
    ensures forall c :: c in RemoveDashes(s) ==> c in s
  {
    if s != [] {
      RemoveDashesSpec(s[1..]);
    }
  }

  function LowerChar(c: char): char
  {
    if 'A' <= c <= 'Z' then (c as int + 32) as char else c
  }

  /** `toLowerCase` on the ASCII letters. */
  function ToLower(s: string): (r: string)
    ensures |r| == |s|
  {
    seq(|s|, k requires 0 <= k < |s| => LowerChar(s[k]))
  }

  /** The normalisation `parseArgs` applies to every key. */
  function NormalizeKey(key: string): string
  {
    ToLower(RemoveDashes(Trim(key)))
  }

  /** A normalised key has no `-` and no upper-case ASCII letter. */
  lemma NormalizedKeyForm(key: string)
    ensures '-' !in NormalizeKey(key)
    ensures forall k :: 0 <= k < |NormalizeKey(key)| ==> !('A' <= NormalizeKey(key)[k] <= 'Z')
  {
    var d := RemoveDashes(Trim(key));
    RemoveDashesSpec(Trim(key));
    forall k | 0 <= k < |d|
      ensures ToLower(d)[k] != '-'
    {
      assert d[k] in d;
    }
  }

  lemma {:induction false} RemoveDashesAppend(a: string, b: string)
    ensures RemoveDashes(a + b) == RemoveDashes(a) + RemoveDashes(b)
  {
    if a != [] {
      assert (a + b)[0] == a[0];
      assert (a + b)[1..] == a[1..] + b;
      RemoveDashesAppend(a[1..], b);
      if a[0] != '-' {
        AppendAssoc([a[0]], RemoveDashes(a[1..]), RemoveDashes(b));
      }
    } else {
      assert a + b == b;
    }
  }

  /** Without white space at either end, only the dashes and the case of a key matter. */
  lemma NormalizeUntrimmed(key: string)
    requires key != [] && !IsTrimmed(key[0]) && !IsTrimmed(key[|key| - 1])
    ensures NormalizeKey(key) == ToLower(RemoveDashes(key))
  {
  }

  /**
   * A `-` anywhere in a key is ignored: `--entryFile`, `entry-file` and
   * `entryFile` normalise alike.
   */
  lemma DashIgnored(x: string, y: string)
    requires x + y != [] && !IsTrimmed((x + y)[0]) && !IsTrimmed((x + y)[|x + y| - 1])
    ensures NormalizeKey(x + ['-'] + y) == NormalizeKey(x + y)
  {
    var key := x + ['-'] + y;
    assert NormalizeKey(key) == ToLower(RemoveDashes(key)) by {
      assert key[0] == if x == [] then '-' else (x + y)[0];
      assert key[|key| - 1] == if y == [] then '-' else (x + y)[|x + y| - 1];
      NormalizeUntrimmed(key);
    }
    NormalizeUntrimmed(x + y);
    assert RemoveDashes(key) == RemoveDashes(x + y) by {
      RemoveDashesAppend(x + ['-'], y);
      RemoveDashesAppend(x, ['-']);
      RemoveDashesAppend(x, y);
    }
  }

  /** The case of the map's keys does not matter. */
  lemma EntryFileSpellings()
    ensures ToLower("entryFile") == "entryfile"
    ensures ToLower("scratchDir") == "scratchdir"
  {
  }

  // ---------------------------------------------------------------------
  // The key map
  // ---------------------------------------------------------------------

  /** The own entries of `keyMap`. */
  function KeyMap(key: string): (r: Option<Field>)
    ensures r == Some(EntryFile) <==> key == "entryfile"
    ensures r == Some(ScratchDir) <==> key == "scratchdir"
  {
    if key == "entryfile" then Some(EntryFile)
    else if key == "scratchdir" then Some(ScratchDir)
    else None
  }

  /**
   * The lower-case names `keyMap` inherits from `Object.prototype`; the
   * `in` operator finds them too.
   */
  const InheritedKeys: set<string> := {"constructor", "__proto__"}

  /** `key in keyMap`, where `inherited` are the names found through the prototype. */
  predicate InKeyMap(key: string, inherited: set<string>)
  {
    KeyMap(key).Some? || key in inherited
  }

  /** The value stored for a path argument: `resolve(cwd, value)`. */
  function Resolve(cwd: Path, value: string): string
    requires IsNormal(cwd)
  {
    Render(ResolvePath(cwd, value))
  }

  /** `Resolve` against a fixed working directory, as a function value. */
  function Resolver(cwd: Path): (string -> string)
    requires IsNormal(cwd)
  {
    value => Resolve(cwd, value)
  }

  function Assign(p: ParsedArgs, f: Field, value: string): (r: ParsedArgs)
  {
    match f
    case EntryFile => p.(entryFile := value)
    case ScratchDir => p.(scratchDir := value)
  }

  /**
   * The loop over the `key value` pairs from the front: an unknown key
   * throws, a known one assigns its field, and a key found only through
   * the prototype selects no `case` and is passed over.
   */
  function ApplyPairs(p: ParsedArgs, resolve: string -> string, rest: seq<string>, inherited: set<string>): Outcome
    requires |rest| % 2 == 0
    decreases |rest|
  {
    if rest == [] then Parsed(p)
    else
      var key := NormalizeKey(rest[0]);
      if !InKeyMap(key, inherited) then Failed(UnknownKey(key))
      else
        match KeyMap(key)
        case Some(f) => ApplyPairs(Assign(p, f, resolve(rest[1])), resolve, rest[2..], inherited)
        case None => ApplyPairs(p, resolve, rest[2..], inherited)
  }

  /** `parseArgs(args)`, for a given set of names that `in` finds through the prototype. */
  function ParseArgsWith(resolve: string -> string, args: seq<string>, inherited: set<string>): Outcome
  {
    if args == [] then Failed(UnknownCommand(None))
    else
      var rest := args[1..];
      if |rest| % 2 == 1 then Failed(Uneven(rest))
      else
        match CommandOf(args[0])
        case Some(c) => ApplyPairs(ParsedArgs(c, "", ""), resolve, rest, inherited)
        case None => Failed(UnknownCommand(Some(args[0])))
  }

  /** `parseArgs` as written: `key in keyMap` also finds inherited names. */
  function ParseArgsAsWritten(cwd: Path, args: seq<string>): Outcome
    requires IsNormal(cwd)
  {
    ParseArgsWith(Resolver(cwd), args, InheritedKeys)
  }

  /** `parseArgs` with the key check it evidently means: only the map's own keys. */
  function ParseArgsSpec(cwd: Path, args: seq<string>): Outcome
    requires IsNormal(cwd)
  {
    ParseArgsWith(Resolver(cwd), args, {})
  }

  /**
   * A key that normalises to an inherited name passes the key check as
   * written and is silently dropped; with the corrected check it is an
   * unknown key.
   */
  lemma InheritedKeyAccepted(cwd: Path, key: string, value: string)
    requires IsNormal(cwd)
    requires NormalizeKey(key) in InheritedKeys
    ensures ParseArgsAsWritten(cwd, ["dev", key, value]) == Parsed(ParsedArgs(Dev, "", ""))
    ensures ParseArgsSpec(cwd, ["dev", key, value]) == Failed(UnknownKey(NormalizeKey(key)))
  {
    var args := ["dev", key, value];
    assert args[1..] == [key, value];
    assert [key, value][2..] == [];
    assert CommandOf(args[0]) == Some(Dev);
    assert ApplyPairs(ParsedArgs(Dev, "", ""), Resolver(cwd), [], InheritedKeys) == Parsed(ParsedArgs(Dev, "", ""));
    var k := NormalizeKey(key);
    assert KeyMap(k).None? by {
      if k == "constructor" {
        assert |k| == 11;
      } else {
        assert k == "__proto__" && k[0] == '_';
        assert "entryfile"[0] == 'e' && "scratchdir"[0] == 's';
      }
    }
  }

  /** Any number of leading dashes is ignored. */
  lemma {:induction false} LeadingDashesIgnored(dashes: string, y: string)
    requires forall k :: 0 <= k < |dashes| ==> dashes[k] == '-'
    requires y != [] && !IsTrimmed(y[0]) && !IsTrimmed(y[|y| - 1])
    ensures NormalizeKey(dashes + y) == NormalizeKey(y)
  {
    if dashes == [] {
      assert dashes + y == y;
    } else {
      var tail := dashes[1..] + y;
      assert dashes + y == [] + ['-'] + tail;
      assert tail[0] == if dashes[1..] == [] then y[0] else '-';
      assert tail[|tail| - 1] == y[|y| - 1];
      DashIgnored([], tail);
      LeadingDashesIgnored(dashes[1..], y);
    }
  }

  lemma ConstructorLower()
    ensures ToLower("constructor") == "constructor"
  {
  }

  /** `constructor`, with any number of leading dashes, is such a key. */
  lemma ConstructorKeyInherited(dashes: string)
    requires forall k :: 0 <= k < |dashes| ==> dashes[k] == '-'
    ensures NormalizeKey(dashes + "constructor") in InheritedKeys
  {
    var name := "constructor";
    LeadingDashesIgnored(dashes, name);
    NormalizeUntrimmed(name);
    RemoveDashesSpec(name);
    ConstructorLower();
  }

  // ---------------------------------------------------------------------
  // The imperative parser and what it promises
  // ---------------------------------------------------------------------

  /**
   * `parseArgs`: a loop over the pairs with `i += 2`, assigning fields of
   * `parsed`. `inherited` are the names `key in keyMap` finds through the
   * prototype: `InheritedKeys` for the function as written, `{}` for the
   * corrected check `keyMap.hasOwnProperty(key)`.
   */
  method ParseArgs(cwd: Path, args: seq<string>, inherited: set<string>) returns (r: Outcome)
    requires IsNormal(cwd)
    ensures r == ParseArgsWith(Resolver(cwd), args, inherited)
  {
    if |args| == 0 {
      return Failed(UnknownCommand(None));
    }
    var cmd := args[0];
    var rest := args[1..];
    if |rest| % 2 == 1 {
      return Failed(Uneven(rest));
    }
    var c := CommandOf(cmd);
    if c.None? {
      return Failed(UnknownCommand(Some(cmd)));
    }
    var parsed := ParsedArgs(c.value, "", "");
    ghost var pairs := |rest| / 2;
    assert |rest| == 2 * pairs;
    var i := 0;
    ghost var j := 0;
    while i < |rest|
      invariant 0 <= j <= pairs && i == 2 * j
      invariant ApplyPairs(parsed, Resolver(cwd), rest[i..], inherited)
        == ApplyPairs(ParsedArgs(c.value, "", ""), Resolver(cwd), rest, inherited)
      decreases |rest| - i
    {
      assert rest[i..][2..] == rest[i + 2..];
      var key := NormalizeKey(rest[i]);
      if !InKeyMap(key, inherited) {
        return Failed(UnknownKey(key));
      }
      var field := KeyMap(key);
      match field {
        case Some(EntryFile) =>
          parsed := parsed.(entryFile := Resolve(cwd, rest[i + 1]));
        case Some(ScratchDir) =>
          parsed := parsed.(scratchDir := Resolve(cwd, rest[i + 1]));
        case None =>
      }
      i := i + 2;
      j := j + 1;
    }
    assert rest[i..] == [];
    return Parsed(parsed);
  }

  /** Every key, read at an even offset of the pairs, is in the key map. */
  predicate AllKeysKnown(rest: seq<string>)
  {
    forall j :: 0 <= j < |rest| && j % 2 == 0 ==> KeyMap(NormalizeKey(rest[j])).Some?
  }

  /** The value of the last pair whose key names `f`, read at the odd offset after it. */
  function LastValue(rest: seq<string>, f: Field): Option<string>
    requires |rest| % 2 == 0
    decreases |rest|
  {
    if rest == [] then None
    else
      var later := LastValue(rest[2..], f);
      if later.Some? then later
      else if KeyMap(NormalizeKey(rest[0])) == Some(f) then Some(rest[1])
      else None
  }

  /** What a field ends up holding: the resolved last value, else what it held before. */
  function Final(resolve: string -> string, rest: seq<string>, f: Field, before: string): string
    requires |rest| % 2 == 0
  {
    match LastValue(rest, f)
    case Some(v) => resolve(v)
    case None => before
  }

  /**
   * The pairs succeed exactly when every key is known; the fields then
   * hold the resolved value of their last occurrence, and `cmd` is kept.
   */
  lemma {:induction false} ApplyPairsSpec(p: ParsedArgs, resolve: string -> string, rest: seq<string>)
    requires |rest| % 2 == 0
    decreases |rest|
    ensures ApplyPairs(p, resolve, rest, {}).Parsed? <==> AllKeysKnown(rest)
    ensures ApplyPairs(p, resolve, rest, {}).Parsed? ==>
      ApplyPairs(p, resolve, rest, {}).args
        == ParsedArgs(p.cmd, Final(resolve, rest, EntryFile, p.entryFile), Final(resolve, rest, ScratchDir, p.scratchDir))
  {
    if rest != [] {
      var key := NormalizeKey(rest[0]);
      assert rest[2..][..] == rest[2..];
      if KeyMap(key).Some? {
        var q := Assign(p, KeyMap(key).value, resolve(rest[1]));
        ApplyPairsSpec(q, resolve, rest[2..]);
        assert AllKeysKnown(rest) <==> AllKeysKnown(rest[2..]) by {
          if AllKeysKnown(rest[2..]) {
            forall j | 0 <= j < |rest| && j % 2 == 0
              ensures KeyMap(NormalizeKey(rest[j])).Some?
            {
              if j >= 2 {
                assert rest[j] == rest[2..][j - 2];
              }
            }
          }
          if AllKeysKnown(rest) {
            forall j | 0 <= j < |rest[2..]| && j % 2 == 0
              ensures KeyMap(NormalizeKey(rest[2..][j])).Some?
            {
              assert rest[2..][j] == rest[j + 2];
            }
          }
        }
      } else {
        assert !AllKeysKnown(rest) by {
          assert 0 % 2 == 0;
        }
      }
    }
  }

  /**
   * `parseArgs` succeeds exactly when there is a command `dev` or `test`,
   * an even number of arguments after it and only known keys; `cmd` is
   * the first argument, and each path is the resolved value of the last
   * pair naming it, or `''`.
   */
  lemma ParseArgsSucceeds(cwd: Path, args: seq<string>)
    requires IsNormal(cwd)
    ensures ParseArgsSpec(cwd, args).Parsed? <==>
      |args| >= 1 && |args| % 2 == 1 && CommandOf(args[0]).Some? && AllKeysKnown(args[1..])
    ensures ParseArgsSpec(cwd, args).Parsed? ==>
      var r := ParseArgsSpec(cwd, args).args;
      && CommandName(r.cmd) == args[0]
      && r.entryFile == Final(Resolver(cwd), args[1..], EntryFile, "")
      && r.scratchDir == Final(Resolver(cwd), args[1..], ScratchDir, "")
  {
    if args != [] {
      var rest := args[1..];
      assert |rest| % 2 == 0 <==> |args| % 2 == 1;
      if |rest| % 2 == 0 && CommandOf(args[0]).Some? {
        ApplyPairsSpec(ParsedArgs(CommandOf(args[0]).value, "", ""), Resolver(cwd), rest);
      }
    }
  }

  /**
   * The pair count is checked before the command: an odd number of
   * arguments after the first throws "Uneven amount of args", whatever
   * the command; otherwise a command other than `dev` or `test` (or none)
   * throws "Unknown command".
   */
  lemma ParseArgsErrors(cwd: Path, args: seq<string>)
    requires IsNormal(cwd)
    ensures |args| >= 1 && |args| % 2 == 0 ==> ParseArgsSpec(cwd, args) == Failed(Uneven(args[1..]))
    ensures ParseArgsSpec(cwd, args).Failed? && ParseArgsSpec(cwd, args).error.UnknownCommand? <==>
      (args == [] || (|args| % 2 == 1 && args[0] != "dev" && args[0] != "test"))
    ensures args == [] ==> ParseArgsSpec(cwd, args) == Failed(UnknownCommand(None))
  {
    if |args| >= 1 && |args| % 2 == 1 && CommandOf(args[0]).Some? {
      ApplyPairsNeverUnknownCommand(ParsedArgs(CommandOf(args[0]).value, "", ""), Resolver(cwd), args[1..]);
    }
  }

  /** The loop over the pairs only ever fails with an unknown key. */
  lemma {:induction false} ApplyPairsNeverUnknownCommand(p: ParsedArgs, resolve: string -> string, rest: seq<string>)
    requires |rest| % 2 == 0
    decreases |rest|
    ensures ApplyPairs(p, resolve, rest, {}).Failed? ==> ApplyPairs(p, resolve, rest, {}).error.UnknownKey?
  {
    if rest != [] {
      var key := NormalizeKey(rest[0]);
      if KeyMap(key).Some? {
        ApplyPairsNeverUnknownCommand(Assign(p, KeyMap(key).value, resolve(rest[1])), resolve, rest[2..]);
      }
    }
  }
}
