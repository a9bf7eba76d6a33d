/**
 * The binding-instruction diff of the testing package:
 * `targetedInstructionTypeName` names an instruction type code, and
 * `verifyBindingInstructionsEqual` walks an actual and an expected
 * instruction side by side, appends one `OK` or `WRONG` line per leaf
 * compared to a shared error list, and fails at the top-level path
 * `instruction` when any line is a mismatch.
 */
module Assertions {
  import opened Common

  // ---------------------------------------------------------------------
  // Instruction type names
  // ---------------------------------------------------------------------

  /** The instruction types `targetedInstructionTypeName` knows. */
  datatype InstructionType =
    | TextBinding | Interpolation | PropertyBinding | IteratorBinding | ListenerBinding
    | CallBinding | RefBinding | StylePropertyBinding | SetProperty | SetAttribute
    | HydrateElement | HydrateAttribute | HydrateTemplateController | HydrateLetElement | LetBinding

  /**
   * The code of each type, from `TargetedInstructionType` and
   * `HTMLTargetedInstructionType`: `r…` codes for the runtime, `h…` codes
   * for the HTML runtime.
   */
  function Code(t: InstructionType): string
  {
    match t
    case TextBinding => "ha"
    case Interpolation => "rf"
    case PropertyBinding => "rg"
    case IteratorBinding => "rk"
    case ListenerBinding => "hb"
    case CallBinding => "rh"
    case RefBinding => "rj"
    case StylePropertyBinding => "hd"
    case SetProperty => "re"
    case SetAttribute => "he"
    case HydrateElement => "ra"
    case HydrateAttribute => "rb"
    case HydrateTemplateController => "rc"
    case HydrateLetElement => "rd"
    case LetBinding => "ri"
  }

  /** The name reported for each type. */
  function Name(t: InstructionType): string
  {
    match t
    case TextBinding => "textBinding"
    case Interpolation => "interpolation"
    case PropertyBinding => "propertyBinding"
    case IteratorBinding => "iteratorBinding"
    case ListenerBinding => "listenerBinding"
    case CallBinding => "callBinding"
    case RefBinding => "refBinding"
    case StylePropertyBinding => "stylePropertyBinding"
    case SetProperty => "setProperty"
    case SetAttribute => "setAttribute"
    case HydrateElement => "hydrateElement"
    case HydrateAttribute => "hydrateAttribute"
    case HydrateTemplateController => "hydrateTemplateController"
    case HydrateLetElement => "hydrateLetElement"
    case LetBinding => "letBinding"
  }

  /** The cases of the switch, in the order they are written. */
  const Cases: seq<InstructionType> := [
    TextBinding, Interpolation, PropertyBinding, IteratorBinding, ListenerBinding,
    CallBinding, RefBinding, StylePropertyBinding, SetProperty, SetAttribute,
    HydrateElement, HydrateAttribute, HydrateTemplateController, HydrateLetElement, LetBinding]

  /** The first case whose code is `t` gives its name; when none matches, `t` itself. */
  function FirstCase(t: string, cases: seq<InstructionType>): string
  {
    if cases == [] then t
    else if t == Code(cases[0]) then Name(cases[0])
    else FirstCase(t, cases[1..])
  }

  /** `targetedInstructionTypeName`: the switch over the fifteen codes, with the input as default. */
  function TargetedInstructionTypeName(t: string): string
  {
    FirstCase(t, Cases)
  }

  /** No two types share a code, so no case of the switch shadows another. */
  lemma CodesDistinct(t: InstructionType, u: InstructionType)
    ensures Code(t) == Code(u) ==> t == u
  {
    if Code(t) == Code(u) {
      assert Code(t)[0] == Code(u)[0] && Code(t)[1] == Code(u)[1];
    }
  }

  lemma {:induction false} FirstCaseFinds(t: InstructionType, cases: seq<InstructionType>)
    requires t in cases
    ensures FirstCase(Code(t), cases) == Name(t)
  {
    CodesDistinct(cases[0], t);
    if cases[0] != t {
      FirstCaseFinds(t, cases[1..]);
    }
  }

  lemma {:induction false} FirstCaseMisses(t: string, cases: seq<InstructionType>)
    requires forall u :: u in cases ==> Code(u) != t
    ensures FirstCase(t, cases) == t
  {
    if cases != [] {
      FirstCaseMisses(t, cases[1..]);
    }
  }

  /** Each of the fifteen codes is reported under its own name. */
  lemma TypeNameOfCode(t: InstructionType)
    ensures TargetedInstructionTypeName(Code(t)) == Name(t)
  {
    assert t in Cases by {
      match t
      case TextBinding => assert Cases[0] == t;
      case Interpolation => assert Cases[1] == t;
      case PropertyBinding => assert Cases[2] == t;
      case IteratorBinding => assert Cases[3] == t;
      case ListenerBinding => assert Cases[4] == t;
      case CallBinding => assert Cases[5] == t;
      case RefBinding => assert Cases[6] == t;
      case StylePropertyBinding => assert Cases[7] == t;
      case SetProperty => assert Cases[8] == t;
      case SetAttribute => assert Cases[9] == t;
      case HydrateElement => assert Cases[10] == t;
      case HydrateAttribute => assert Cases[11] == t;
      case HydrateTemplateController => assert Cases[12] == t;
      case HydrateLetElement => assert Cases[13] == t;
      case LetBinding => assert Cases[14] == t;
    }
    FirstCaseFinds(t, Cases);
  }

  /** Any other text comes back unchanged. */
  lemma TypeNameFallback(t: string)
    requires forall u: InstructionType :: Code(u) != t
    ensures TargetedInstructionTypeName(t) == t
  {
    FirstCaseMisses(t, Cases);
  }

  // ---------------------------------------------------------------------
  // Values
  // ---------------------------------------------------------------------

  /** One own enumerable property of an object. */
  datatype Prop = Prop(key: string, value: Value)

  /**
   * The JSON-like values an instruction is made of. An object lists its
   * own enumerable properties in `for…in` order; numbers are integers.
   */
  datatype Value =
    | Undefined
    | Null
    | Bool(b: bool)
    | Num(n: int)
    | Str(s: string)
    | Arr(items: seq<Value>)
    | Obj(props: seq<Prop>)

  /** `v instanceof Object`. */
  predicate IsObject(v: Value)
  {
    v.Arr? || v.Obj?
  }

  /** A measure that every property and element read from an object is below. */
  function Size(v: Value): nat
    decreases v
  {
    match v
    case Arr(items) => 2 + SizeItems(items)
    case Obj(props) => 2 + SizeProps(props)
    case _ => 1
  }

  function SizeItems(items: seq<Value>): nat
    decreases items
  {
    if items == [] then 0 else Size(items[0]) + SizeItems(items[1..])
  }

  function SizeProps(props: seq<Prop>): nat
    decreases props
  {
    if props == [] then 0 else Size(props[0].value) + SizeProps(props[1..])
  }

  /** `obj[key]` on an object's own properties: the first with that key, or `undefined`. */
  function Lookup(props: seq<Prop>, key: string): Value
  {
    if props == [] then Undefined
    else if props[0].key == key then props[0].value
    else Lookup(props[1..], key)
  }

  /** `arr[key]` for a key that is the decimal text of an index below the length. */
  function FindItem(items: seq<Value>, key: string, i: nat): Value
    decreases |items| - i
  {
    if i >= |items| then Undefined
    else if NatToString(i) == key then items[i]
    else FindItem(items, key, i + 1)
  }

  /** `v[key]` for a property name. */
  function Get(v: Value, key: string): Value
  {
    match v
    case Obj(props) => Lookup(props, key)
    case Arr(items) => if key == "length" then Num(|items|) else FindItem(items, key, 0)
    case _ => Undefined
  }

  /** `v[i]` for a numeric index. */
  function At(v: Value, i: nat): Value
  {
    match v
    case Arr(items) => if i < |items| then items[i] else Undefined
    case Obj(props) => Lookup(props, NatToString(i))
    case _ => Undefined
  }

  /** The keys `for (const prop in v)` enumerates. */
  function Keys(v: Value): seq<string>
  {
    match v
    case Obj(props) => seq(|props|, k requires 0 <= k < |props| => props[k].key)
    case Arr(items) => seq(|items|, k requires 0 <= k => NatToString(k))
    case _ => []
  }

  /**
   * `Math.max(expected.length, actual.length)` for an expected array.
   * `null` counts as 0 and a boolean as 0 or 1. A missing `length`, or one
   * that is itself an object, makes the maximum `NaN` and the loop does not
   * run. A string `length` is coerced to a number by `Math.max`; that
   * coercion is not modelled and every string is treated as `NaN`.
   */
  function Bound(actual: Value, expected: Value): nat
    requires expected.Arr?
  {
    var e := |expected.items|;
    match actual
    case Arr(items) => if |items| > e then |items| else e
    case Obj(props) =>
      (match Lookup(props, "length")
       case Num(m) => if m > e then m else e
       case Null => e
       case Bool(b) => if b && e == 0 then 1 else e
       case _ => 0)
    case _ => 0
  }

  lemma {:induction false} ItemBelow(items: seq<Value>, i: nat)
    requires i < |items|
    ensures Size(items[i]) <= SizeItems(items)
  {
    if i > 0 {
      ItemBelow(items[1..], i - 1);
      assert items[1..][i - 1] == items[i];
    }
  }

  lemma {:induction false} LookupBelow(props: seq<Prop>, key: string)
    ensures Size(Lookup(props, key)) <= 1 + SizeProps(props)
  {
    if props != [] && props[0].key != key {
      LookupBelow(props[1..], key);
    }
  }

  lemma {:induction false} FindItemBelow(items: seq<Value>, key: string, i: nat)
    ensures Size(FindItem(items, key, i)) <= 1 + SizeItems(items)
    decreases |items| - i
  {
    if i < |items| {
      if NatToString(i) == key {
        ItemBelow(items, i);
      } else {
        FindItemBelow(items, key, i + 1);
      }
    }
  }

  /** A property read from an object is smaller than the object. */
  lemma GetBelow(v: Value, key: string)
    requires IsObject(v)
    ensures Size(Get(v, key)) < Size(v)
  {
    match v
    case Obj(props) => LookupBelow(props, key);
    case Arr(items) => FindItemBelow(items, key, 0);
  }

  /** An element read from an object is smaller than the object. */
  lemma AtBelow(v: Value, i: nat)
    requires IsObject(v)
    ensures Size(At(v, i)) < Size(v)
  {
    match v
    case Obj(props) => LookupBelow(props, NatToString(i));
    case Arr(items) => if i < |items| { ItemBelow(items, i); }
  }

  // ---------------------------------------------------------------------
  // The lines of a comparison
  // ---------------------------------------------------------------------

  /** `${v}` for a value that is not an object. */
  function Text(v: Value): string
    requires !IsObject(v)
  {
    match v
    case Undefined => "undefined"
    case Null => "null"
    case Bool(b) => if b then "true" else "false"
    case Num(n) => IntToString(n)
    case Str(s) => s
  }

  /**
   * A side of a mismatch as it is reported: an object becomes its JSON
   * text (`stringify`), and at a path ending in `type` a string goes
   * through `targetedInstructionTypeName`.
   */
  function Shown(v: Value, path: string, stringify: Value -> string): (r: Value)
    ensures !IsObject(r)
    ensures IsObject(v) ==>
              r == Str(if EndsWith(path, "type") then TargetedInstructionTypeName(stringify(v)) else stringify(v))
    ensures !IsObject(v) && v.Str? && EndsWith(path, "type") ==> r == Str(TargetedInstructionTypeName(v.s))
    ensures !IsObject(v) && !(v.Str? && EndsWith(path, "type")) ==> r == v
  {
    var json := if IsObject(v) then Str(stringify(v)) else v;
    if EndsWith(path, "type") && json.Str? then Str(TargetedInstructionTypeName(json.s)) else json
  }

  /** The one line of a comparison in which either side is not an object. */
  function Leaf(actual: Value, expected: Value, path: string, stringify: Value -> string): string
    requires !IsObject(actual) || !IsObject(expected)
  {
    if actual != expected then
      "WRONG: " + path + " === " + Text(Shown(actual, path, stringify))
        + " (expected: " + Text(Shown(expected, path, stringify)) + ")"
    else
      "OK   : " + path + " === " + Text(expected)
  }

  /** The line a leaf comparison appends, as a function of the two values and the path. */
  type LineOf = (Value, Value, string) -> string

  /** `Leaf`, extended to two objects (a comparison that never reaches a leaf) with an empty line. */
  function LeafOf(stringify: Value -> string): LineOf
  {
    (a, e, p) => if IsObject(a) && IsObject(e) then "" else Leaf(a, e, p, stringify)
  }

  /** `line` gives the line `Leaf` builds for every leaf comparison. */
  ghost predicate Renders(line: LineOf, stringify: Value -> string)
  {
    forall a, e, p {:trigger Leaf(a, e, p, stringify)} ::
      !IsObject(a) || !IsObject(e) ==> line(a, e, p) == Leaf(a, e, p, stringify)
  }

  /** The path of element `i`: `${path}[${i}]`. */
  function IndexPath(path: string, i: nat): string
  {
    path + "[" + NatToString(i) + "]"
  }

  /** The path of property `key`: `${path}.${key}`. */
  function KeyPath(path: string, key: string): string
  {
    path + "." + key
  }

  /** The keys of a `for…in` loop as a set. */
  function SetOf(keys: seq<string>): set<string>
  {
    if keys == [] then {} else {keys[0]} + SetOf(keys[1..])
  }

  /**
   * The keys of `actual` the second loop visits: those `seen` does not
   * answer for. `seen` answers for the keys of `expected` and, as
   * written, for the names it inherits.
   */
  function Unseen(keys: seq<string>, seen: set<string>): seq<string>
  {
    if keys == [] then []
    else (if keys[0] in seen then [] else [keys[0]]) + Unseen(keys[1..], seen)
  }

  /** Every key the two `for…in` loops visit, in order. */
  function Visited(actual: Value, expected: Value, inherited: set<string>): seq<string>
  {
    Keys(expected) + Unseen(Keys(actual), SetOf(Keys(expected)) + inherited)
  }

  /**
   * The lines one call of `verifyBindingInstructionsEqual` appends: one
   * line for a leaf, the lines of each index for an expected array, and
   * the lines of each visited key for an expected object.
   */
  function Lines(actual: Value, expected: Value, path: string, line: LineOf, inherited: set<string>): seq<string>
    decreases Size(actual) + Size(expected), 1, 0
  {
    if !IsObject(expected) || !IsObject(actual) then [line(actual, expected, path)]
    else if expected.Arr? then IndexLines(actual, expected, path, line, inherited, 0, Bound(actual, expected))
    else KeyLines(actual, expected, path, line, inherited, Visited(actual, expected, inherited))
  }

  /** The lines of indices `i` up to `n`. */
  function IndexLines(actual: Value, expected: Value, path: string, line: LineOf, inherited: set<string>, i: nat, n: nat): seq<string>
    requires IsObject(actual) && IsObject(expected)
    decreases Size(actual) + Size(expected), 0, n - i
  {
    if i >= n then []
    else
      AtBelow(actual, i);
      AtBelow(expected, i);
      Lines(At(actual, i), At(expected, i), IndexPath(path, i), line, inherited)
        + IndexLines(actual, expected, path, line, inherited, i + 1, n)
  }

  /** The lines of the given keys, in order. */
  function KeyLines(actual: Value, expected: Value, path: string, line: LineOf, inherited: set<string>, keys: seq<string>): seq<string>
    requires IsObject(actual) && IsObject(expected)
    decreases Size(actual) + Size(expected), 0, |keys|
  {
    if keys == [] then []
    else
      GetBelow(actual, keys[0]);
      GetBelow(expected, keys[0]);
      Lines(Get(actual, keys[0]), Get(expected, keys[0]), KeyPath(path, keys[0]), line, inherited)
        + KeyLines(actual, expected, path, line, inherited, keys[1..])
  }

  /** The names every plain object inherits from `Object.prototype`. */
  const PrototypeNames: set<string> := {
    "constructor", "hasOwnProperty", "isPrototypeOf", "propertyIsEnumerable",
    "toLocaleString", "toString", "valueOf", "__proto__",
    "__defineGetter__", "__defineSetter__", "__lookupGetter__", "__lookupSetter__"}

  /** The lines as the function is written: `seen` starts as `{}`, which answers for the inherited names. */
  function LinesAsWritten(actual: Value, expected: Value, path: string, stringify: Value -> string): seq<string>
  {
    Lines(actual, expected, path, LeafOf(stringify), PrototypeNames)
  }

  /** The lines with `seen` answering only for the keys of `expected`. */
  function LinesSpec(actual: Value, expected: Value, path: string, stringify: Value -> string): seq<string>
  {
    Lines(actual, expected, path, LeafOf(stringify), {})
  }

  /** `e[0] === 'W'`. */
  predicate IsWrong(line: string)
  {
    line != [] && line[0] == 'W'
  }

  /** `errors.some(e => e[0] === 'W')`. */
  function SomeWrong(lines: seq<string>): bool
  {
    if lines == [] then false
    else IsWrong(lines[0]) || SomeWrong(lines[1..])
  }

  /** `lines.join(sep)`. */
  function Join(lines: seq<string>, sep: string): string
  {
    if lines == [] then ""
    else if |lines| == 1 then lines[0]
    else lines[0] + sep + Join(lines[1..], sep)
  }

  /** The error thrown at the end of a call, if any. */
  function Failure(path: string, lines: seq<string>): Option<string>
  {
    if path == "instruction" && SomeWrong(lines) then
      Some("Failed assertion: binding instruction mismatch\n  - " + Join(lines, "\n  - "))
    else None
  }

  // ---------------------------------------------------------------------
  // The walk
  // ---------------------------------------------------------------------

  /** The `errors` array the calls share. */
  class ErrorLog {
    var lines: seq<string>

    constructor()
      ensures lines == []
    {
      lines := [];
    }

    /** `errors.push(line)`. */
    method Push(line: string)
      modifies this
      ensures lines == old(lines) + [line]
    {
      lines := lines + [line];
    }
  }

  /**
   * `verifyBindingInstructionsEqual(actual, expected, errors, path)`: it
   * appends exactly the lines of the comparison to `errors` and fails
   * (returns the error it throws) when `path` is `instruction` and some
   * line of the whole list, earlier lines included, is a mismatch.
   * `line` stands for `Leaf`, the text of a leaf line.
   */
  method Verify(actual: Value, expected: Value, errors: ErrorLog, path: string, stringify: Value -> string, ghost line: LineOf,
                inherited: set<string>)
    returns (failure: Option<string>)
    requires Renders(line, stringify)
    modifies errors
    decreases Size(actual) + Size(expected), 3
    ensures errors.lines == old(errors.lines) + Lines(actual, expected, path, line, inherited)
    ensures failure == Failure(path, errors.lines)
  {
    if !IsObject(expected) || !IsObject(actual) {
      errors.Push(Leaf(actual, expected, path, stringify));
    } else if expected.Arr? {
      VerifyElements(actual, expected, errors, path, stringify, line, inherited);
    } else {
      VerifyProps(actual, expected, errors, path, stringify, line, inherited);
    }
    failure := Failure(path, errors.lines);
  }

  /** The loop over the indices of an expected array. */
  method VerifyElements(actual: Value, expected: Value, errors: ErrorLog, path: string, stringify: Value -> string, ghost line: LineOf,
                inherited: set<string>)
    requires IsObject(actual) && expected.Arr?
    requires Renders(line, stringify)
    modifies errors
    decreases Size(actual) + Size(expected), 2
    ensures errors.lines == old(errors.lines) + IndexLines(actual, expected, path, line, inherited, 0, Bound(actual, expected))
  {
    ghost var before := errors.lines;
    var n := Bound(actual, expected);
    var i := 0;
    while i < n
      invariant 0 <= i <= n
      invariant before + IndexLines(actual, expected, path, line, inherited, 0, n)
        == errors.lines + IndexLines(actual, expected, path, line, inherited, i, n)
    {
      AtBelow(actual, i);
      AtBelow(expected, i);
      ghost var rest := IndexLines(actual, expected, path, line, inherited, i + 1, n);
      ghost var mid := errors.lines;
      var _ := Verify(At(actual, i), At(expected, i), errors, IndexPath(path, i), stringify, line, inherited);
      AppendAssoc(mid, Lines(At(actual, i), At(expected, i), IndexPath(path, i), line, inherited), rest);
      i := i + 1;
    }
  }

  /** The two `for…in` loops over an expected object. */
  method VerifyProps(actual: Value, expected: Value, errors: ErrorLog, path: string, stringify: Value -> string, ghost line: LineOf,
                inherited: set<string>)
    requires IsObject(actual) && expected.Obj?
    requires Renders(line, stringify)
    modifies errors
    decreases Size(actual) + Size(expected), 2
    ensures errors.lines == old(errors.lines) + KeyLines(actual, expected, path, line, inherited, Visited(actual, expected, inherited))
  {
    ghost var before := errors.lines;
    var ek := Keys(expected);
    var ak := Keys(actual);
    ghost var f := LinesOfKey(actual, expected, path, line, inherited);
    var seen := VerifyExpectedKeys(actual, expected, errors, path, stringify, line, inherited, ek, f);
    VerifyActualKeys(actual, expected, errors, path, stringify, line, inherited, ak, seen + inherited, f);
    ConcatMapAppend(ek, Unseen(ak, seen + inherited), f);
    KeyLinesConcat(actual, expected, path, line, inherited, ek + Unseen(ak, seen + inherited));
    AppendAssoc(before, ConcatMap(ek, f), ConcatMap(Unseen(ak, seen + inherited), f));
  }

  /** The lines of each key, one key at a time. */
  function LinesOfKey(actual: Value, expected: Value, path: string, line: LineOf, inherited: set<string>): string -> seq<string>
  {
    k => Lines(Get(actual, k), Get(expected, k), KeyPath(path, k), line, inherited)
  }

  /** `f` gives the lines of each key; a fact used only where those lines are computed. */
  ghost predicate LinesOfEachKey(f: string -> seq<string>, actual: Value, expected: Value, path: string, line: LineOf,
                                  inherited: set<string>)
  {
    forall k {:trigger Lines(Get(actual, k), Get(expected, k), KeyPath(path, k), line, inherited)} ::
      f(k) == Lines(Get(actual, k), Get(expected, k), KeyPath(path, k), line, inherited)
  }

  /** The lines of each of `keys` in order. */
  function ConcatMap(keys: seq<string>, f: string -> seq<string>): seq<string>
  {
    if keys == [] then [] else f(keys[0]) + ConcatMap(keys[1..], f)
  }

  /** `for (const prop in expected)`: compare each key and mark it in `seen`. */
  method VerifyExpectedKeys(actual: Value, expected: Value, errors: ErrorLog, path: string, stringify: Value -> string, ghost line: LineOf,
                            inherited: set<string>, ek: seq<string>, ghost f: string -> seq<string>)
    returns (seen: set<string>)
    requires IsObject(actual) && IsObject(expected)
    requires Renders(line, stringify)
    requires LinesOfEachKey(f, actual, expected, path, line, inherited)
    modifies errors
    decreases Size(actual) + Size(expected), 1
    ensures seen == SetOf(ek)
    ensures errors.lines == old(errors.lines) + ConcatMap(ek, f)
  {
    ghost var before := errors.lines;
    seen := {};
    var i := 0;
    while i < |ek|
      invariant 0 <= i <= |ek|
      invariant seen == SetOf(ek[..i])
      invariant before + ConcatMap(ek, f) == errors.lines + ConcatMap(ek[i..], f)
    {
      var prop := ek[i];
      ghost var mid := errors.lines;
      assert ek[i..][1..] == ek[i + 1..];
      VerifyKey(actual, expected, errors, path, stringify, line, inherited, prop, f);
      AppendAssoc(mid, f(prop), ConcatMap(ek[i + 1..], f));
      seen := seen + {prop};
      assert ek[..i + 1] == ek[..i] + [prop];
      SetOfSnoc(ek[..i], prop);
      i := i + 1;
    }
    assert ek[..i] == ek;
    assert ek[i..] == [];
  }

  /** `for (const prop in actual)`: compare each key not `seen`. */
  method VerifyActualKeys(actual: Value, expected: Value, errors: ErrorLog, path: string, stringify: Value -> string, ghost line: LineOf,
                          inherited: set<string>, ak: seq<string>, seen: set<string>, ghost f: string -> seq<string>)
    requires IsObject(actual) && IsObject(expected)
    requires Renders(line, stringify)
    requires LinesOfEachKey(f, actual, expected, path, line, inherited)
    modifies errors
    decreases Size(actual) + Size(expected), 1
    ensures errors.lines == old(errors.lines) + ConcatMap(Unseen(ak, seen), f)
  {
    ghost var before := errors.lines;
    var j := 0;
    while j < |ak|
      invariant 0 <= j <= |ak|
      invariant before + ConcatMap(Unseen(ak, seen), f) == errors.lines + ConcatMap(Unseen(ak[j..], seen), f)
    {
      var prop := ak[j];
      UnseenStep(ak, seen, j, f);
      if prop !in seen {
        ghost var mid := errors.lines;
        VerifyKey(actual, expected, errors, path, stringify, line, inherited, prop, f);
        AppendAssoc(mid, f(prop), ConcatMap(Unseen(ak[j + 1..], seen), f));
      }
      j := j + 1;
    }
    assert ak[j..] == [];
  }

  /** Compares the two values held under one key, at the key's path. */
  method VerifyKey(actual: Value, expected: Value, errors: ErrorLog, path: string, stringify: Value -> string, ghost line: LineOf,
                   inherited: set<string>, prop: string, ghost f: string -> seq<string>)
    requires IsObject(actual) && IsObject(expected)
    requires Renders(line, stringify)
    requires LinesOfEachKey(f, actual, expected, path, line, inherited)
    modifies errors
    decreases Size(actual) + Size(expected), 0
    ensures errors.lines == old(errors.lines) + f(prop)
  {
    GetBelow(actual, prop);
    GetBelow(expected, prop);
    var _ := Verify(Get(actual, prop), Get(expected, prop), errors, KeyPath(path, prop), stringify, line, inherited);
  }

  /** `KeyLines` is the concatenation of the lines of each key. */
  lemma {:induction false} KeyLinesConcat(actual: Value, expected: Value, path: string, line: LineOf, inherited: set<string>,
                                           keys: seq<string>)
    requires IsObject(actual) && IsObject(expected)
    ensures KeyLines(actual, expected, path, line, inherited, keys) == ConcatMap(keys, LinesOfKey(actual, expected, path, line, inherited))
  {
    if keys != [] {
      KeyLinesConcat(actual, expected, path, line, inherited, keys[1..]);
    }
  }

  lemma {:induction false} ConcatMapAppend(xs: seq<string>, ys: seq<string>, f: string -> seq<string>)
    ensures ConcatMap(xs + ys, f) == ConcatMap(xs, f) + ConcatMap(ys, f)
  {
    if xs == [] {
      assert xs + ys == ys;
    } else {
      assert (xs + ys)[1..] == xs[1..] + ys;
      ConcatMapAppend(xs[1..], ys, f);
      AppendAssoc(f(xs[0]), ConcatMap(xs[1..], f), ConcatMap(ys, f));
    }
  }

  /** One step of the second loop: a key `seen` answers for adds nothing, any other key its lines. */
  lemma UnseenStep(ak: seq<string>, seen: set<string>, j: nat, f: string -> seq<string>)
    requires j < |ak|
    ensures ConcatMap(Unseen(ak[j..], seen), f)
      == (if ak[j] in seen then [] else f(ak[j])) + ConcatMap(Unseen(ak[j + 1..], seen), f)
  {
    assert ak[j..][1..] == ak[j + 1..];
    var rest := Unseen(ak[j + 1..], seen);
    var tail := ConcatMap(rest, f);
    if ak[j] in seen {
      assert Unseen(ak[j..], seen) == [] + rest;
      assert [] + rest == rest;
      assert [] + tail == tail;
    } else {
      assert Unseen(ak[j..], seen) == [ak[j]] + rest;
      assert ([ak[j]] + rest)[1..] == rest;
    }
  }

  lemma {:induction false} SetOfSnoc(keys: seq<string>, k: string)
    ensures SetOf(keys + [k]) == SetOf(keys) + {k}
  {
    if keys != [] {
      assert (keys + [k])[1..] == keys[1..] + [k];
      SetOfSnoc(keys[1..], k);
    } else {
      assert keys + [k] == [k];
    }
  }

  /**
   * The call with its optional arguments: a missing `errors` starts an
   * empty list, a missing `path` is `instruction`. `inherited` is the set
   * of names the fresh `seen` object answers for before any key is marked:
   * `PrototypeNames` for the function as written, `{}` for the corrected
   * one (`Object.create(null)`).
   */
  method VerifyBindingInstructionsEqual(actual: Value, expected: Value, errors: ErrorLog?, path: Option<string>,
                                        stringify: Value -> string, inherited: set<string>)
    returns (failure: Option<string>, log: ErrorLog)
    modifies errors
    ensures errors != null ==> log == errors
    ensures errors == null ==> fresh(log)
    ensures log.lines == (if errors == null then [] else old(errors.lines))
      + Lines(actual, expected, if path.Some? then path.value else "instruction", LeafOf(stringify), inherited)
    ensures failure == Failure(if path.Some? then path.value else "instruction", log.lines)
  {
    var p := if path.Some? then path.value else "instruction";
    if errors == null {
      log := new ErrorLog();
    } else {
      log := errors;
    }
    failure := Verify(actual, expected, log, p, stringify, LeafOf(stringify), inherited);
  }

  // ---------------------------------------------------------------------
  // What the lines say
  // ---------------------------------------------------------------------

  /** `some` finds a line starting with `W` exactly when there is one. */
  lemma {:induction false} SomeWrongSpec(lines: seq<string>)
    ensures SomeWrong(lines) <==> exists k :: 0 <= k < |lines| && IsWrong(lines[k])
  {
    if lines != [] {
      SomeWrongSpec(lines[1..]);
      if SomeWrong(lines[1..]) {
        var k :| 0 <= k < |lines[1..]| && IsWrong(lines[1..][k]);
        assert IsWrong(lines[k + 1]);
      }
      if exists k :: 0 <= k < |lines| && IsWrong(lines[k]) {
        var k :| 0 <= k < |lines| && IsWrong(lines[k]);
        if k > 0 {
          assert IsWrong(lines[1..][k - 1]);
        }
      }
    }
  }

  lemma {:induction false} SomeWrongAppend(xs: seq<string>, ys: seq<string>)
    ensures SomeWrong(xs + ys) == (SomeWrong(xs) || SomeWrong(ys))
  {
    if xs == [] {
      assert xs + ys == ys;
    } else {
      assert (xs + ys)[1..] == xs[1..] + ys;
      SomeWrongAppend(xs[1..], ys);
    }
  }

  /**
   * A call fails exactly at the path `instruction` when a line of the
   * whole list starts with `W`.
   */
  lemma FailsIffWrong(path: string, lines: seq<string>)
    ensures Failure(path, lines).Some? <==> path == "instruction" && exists k :: 0 <= k < |lines| && IsWrong(lines[k])
  {
    SomeWrongSpec(lines);
  }

  /** A nested call, whose path has a `.` or a `[`, never fails. */
  lemma NestedNeverFails(path: string, key: string, i: nat, lines: seq<string>)
    ensures Failure(KeyPath(path, key), lines) == None
    ensures Failure(IndexPath(path, i), lines) == None
  {
    assert KeyPath(path, key)[|path|] == '.';
    assert IndexPath(path, i)[|path|] == '[';
  }

  /** A leaf appends one line, which starts with `W` exactly when the two values differ. */
  lemma LeafLine(actual: Value, expected: Value, path: string, stringify: Value -> string)
    requires !IsObject(actual) || !IsObject(expected)
    ensures LinesSpec(actual, expected, path, stringify) == [Leaf(actual, expected, path, stringify)]
    ensures IsWrong(Leaf(actual, expected, path, stringify)) <==> actual != expected
    ensures actual == expected ==> Leaf(actual, expected, path, stringify) == "OK   : " + path + " === " + Text(expected)
    ensures actual != expected ==> StartsWith(Leaf(actual, expected, path, stringify), "WRONG: " + path + " === ")
    ensures actual != expected ==>
              Leaf(actual, expected, path, stringify) ==
              "WRONG: " + path + " === " + Text(Shown(actual, path, stringify))
                + " (expected: " + Text(Shown(expected, path, stringify)) + ")"
  {
    var l := Leaf(actual, expected, path, stringify);
    if actual != expected {
      assert l[..|"WRONG: " + path + " === "|] == "WRONG: " + path + " === ";
    }
  }

  /** A mismatch of two instruction codes at a `type` path is reported by their names. */
  lemma TypeMismatchNamed(t: InstructionType, u: InstructionType, path: string, stringify: Value -> string)
    requires EndsWith(path, "type") && t != u
    ensures LinesSpec(Str(Code(t)), Str(Code(u)), path, stringify)
      == ["WRONG: " + path + " === " + Name(t) + " (expected: " + Name(u) + ")"]
  {
    CodesDistinct(t, u);
    TypeNameOfCode(t);
    TypeNameOfCode(u);
  }

  /** Elsewhere two different strings are reported as they are. */
  lemma StringMismatchVerbatim(a: string, b: string, path: string, stringify: Value -> string)
    requires !EndsWith(path, "type") && a != b
    ensures LinesSpec(Str(a), Str(b), path, stringify) == ["WRONG: " + path + " === " + a + " (expected: " + b + ")"]
  {
  }

  /** Comparing a value with itself never reports a mismatch. */
  lemma {:induction false} EqualPasses(v: Value, path: string, stringify: Value -> string, inherited: set<string>)
    ensures !SomeWrong(Lines(v, v, path, LeafOf(stringify), inherited))
    decreases Size(v) + Size(v), 1, 0
  {
    if !IsObject(v) {
      var l := Leaf(v, v, path, stringify);
      assert l[0] == 'O';
      assert !SomeWrong([l][1..]);
    } else if v.Arr? {
      EqualIndicesPass(v, path, stringify, inherited, 0, Bound(v, v));
    } else {
      EqualKeysPass(v, path, stringify, inherited, Visited(v, v, inherited));
    }
  }

  lemma {:induction false} EqualIndicesPass(v: Value, path: string, stringify: Value -> string, inherited: set<string>, i: nat, n: nat)
    requires IsObject(v)
    ensures !SomeWrong(IndexLines(v, v, path, LeafOf(stringify), inherited, i, n))
    decreases Size(v) + Size(v), 0, n - i
  {
    if i < n {
      AtBelow(v, i);
      EqualPasses(At(v, i), IndexPath(path, i), stringify, inherited);
      EqualIndicesPass(v, path, stringify, inherited, i + 1, n);
      SomeWrongAppend(Lines(At(v, i), At(v, i), IndexPath(path, i), LeafOf(stringify), inherited),
        IndexLines(v, v, path, LeafOf(stringify), inherited, i + 1, n));
    }
  }

  lemma {:induction false} EqualKeysPass(v: Value, path: string, stringify: Value -> string, inherited: set<string>, keys: seq<string>)
    requires IsObject(v)
    ensures !SomeWrong(KeyLines(v, v, path, LeafOf(stringify), inherited, keys))
    decreases Size(v) + Size(v), 0, |keys|
  {
    if keys != [] {
      GetBelow(v, keys[0]);
      EqualPasses(Get(v, keys[0]), KeyPath(path, keys[0]), stringify, inherited);
      EqualKeysPass(v, path, stringify, inherited, keys[1..]);
      SomeWrongAppend(Lines(Get(v, keys[0]), Get(v, keys[0]), KeyPath(path, keys[0]), LeafOf(stringify), inherited),
        KeyLines(v, v, path, LeafOf(stringify), inherited, keys[1..]));
    }
  }

  /** A mismatch at one index is a mismatch of the whole array. */
  lemma {:induction false} IndexWrong(actual: Value, expected: Value, path: string, line: LineOf, inherited: set<string>, i: nat, n: nat, j: nat)
    requires IsObject(actual) && IsObject(expected) && i <= j < n
    requires SomeWrong(Lines(At(actual, j), At(expected, j), IndexPath(path, j), line, inherited))
    ensures SomeWrong(IndexLines(actual, expected, path, line, inherited, i, n))
    decreases n - i
  {
    SomeWrongAppend(Lines(At(actual, i), At(expected, i), IndexPath(path, i), line, inherited),
      IndexLines(actual, expected, path, line, inherited, i + 1, n));
    if i < j {
      IndexWrong(actual, expected, path, line, inherited, i + 1, n, j);
    }
  }

  /** A mismatch at one visited key is a mismatch of the whole object. */
  lemma {:induction false} KeyWrong(actual: Value, expected: Value, path: string, line: LineOf, inherited: set<string>, keys: seq<string>, k: string)
    requires IsObject(actual) && IsObject(expected) && k in keys
    requires SomeWrong(Lines(Get(actual, k), Get(expected, k), KeyPath(path, k), line, inherited))
    ensures SomeWrong(KeyLines(actual, expected, path, line, inherited, keys))
  {
    SomeWrongAppend(Lines(Get(actual, keys[0]), Get(expected, keys[0]), KeyPath(path, keys[0]), line, inherited),
      KeyLines(actual, expected, path, line, inherited, keys[1..]));
    if keys[0] != k {
      KeyWrong(actual, expected, path, line, inherited, keys[1..], k);
    }
  }

  /** An element only the actual array has, and that is not `undefined`, is reported. */
  lemma ExtraElementReported(items: seq<Value>, expectedItems: seq<Value>, path: string, stringify: Value -> string, i: nat)
    requires |expectedItems| <= i < |items| && items[i] != Undefined
    ensures SomeWrong(LinesSpec(Arr(items), Arr(expectedItems), path, stringify))
  {
    var a := Arr(items);
    var e := Arr(expectedItems);
    var l := Leaf(items[i], Undefined, IndexPath(path, i), stringify);
    assert l[0] == 'W';
    assert Lines(At(a, i), At(e, i), IndexPath(path, i), LeafOf(stringify), {}) == [l];
    IndexWrong(a, e, path, LeafOf(stringify), {}, 0, Bound(a, e), i);
  }

  /** An element only the expected array has, and that is not `undefined`, is reported. */
  lemma MissingElementReported(items: seq<Value>, expectedItems: seq<Value>, path: string, stringify: Value -> string, i: nat)
    requires |items| <= i < |expectedItems| && expectedItems[i] != Undefined
    ensures SomeWrong(LinesSpec(Arr(items), Arr(expectedItems), path, stringify))
  {
    var a := Arr(items);
    var e := Arr(expectedItems);
    var l := Leaf(Undefined, expectedItems[i], IndexPath(path, i), stringify);
    assert l[0] == 'W';
    assert Lines(At(a, i), At(e, i), IndexPath(path, i), LeafOf(stringify), {}) == [l];
    IndexWrong(a, e, path, LeafOf(stringify), {}, 0, Bound(a, e), i);
  }

  lemma {:induction false} SetOfHas(keys: seq<string>, k: string)
    ensures k in SetOf(keys) <==> k in keys
  {
    if keys != [] {
      SetOfHas(keys[1..], k);
      assert keys == [keys[0]] + keys[1..];
    }
  }

  lemma {:induction false} UnseenHas(keys: seq<string>, seen: set<string>, k: string)
    ensures k in Unseen(keys, seen) <==> k in keys && k !in seen
  {
    if keys != [] {
      UnseenHas(keys[1..], seen, k);
      assert keys == [keys[0]] + keys[1..];
    }
  }

  lemma {:induction false} LookupAbsent(props: seq<Prop>, k: string)
    requires forall j :: 0 <= j < |props| ==> props[j].key != k
    ensures Lookup(props, k) == Undefined
  {
    if props != [] {
      LookupAbsent(props[1..], k);
    }
  }

  /** The value an object has under a key it does not list is `undefined`. */
  lemma AbsentIsUndefined(v: Value, k: string)
    requires v.Obj? && k !in Keys(v)
    ensures Get(v, k) == Undefined
  {
    forall j | 0 <= j < |v.props|
      ensures v.props[j].key != k
    {
      assert Keys(v)[j] == v.props[j].key;
    }
    LookupAbsent(v.props, k);
  }

  /**
   * A key only the actual value has, whose value is not `undefined`, is
   * reported: the second loop visits it and compares it with `undefined`.
   */
  lemma MissingKeyReported(actual: Value, expected: Value, path: string, stringify: Value -> string, k: string)
    requires IsObject(actual) && expected.Obj?
    requires k in Keys(actual) && k !in Keys(expected) && Get(actual, k) != Undefined
    ensures SomeWrong(LinesSpec(actual, expected, path, stringify))
  {
    SetOfHas(Keys(expected), k);
    UnseenHas(Keys(actual), SetOf(Keys(expected)) + {}, k);
    assert k in Visited(actual, expected, {});
    AbsentIsUndefined(expected, k);
    var l := Leaf(Get(actual, k), Undefined, KeyPath(path, k), stringify);
    assert l[0] == 'W';
    assert Lines(Get(actual, k), Get(expected, k), KeyPath(path, k), LeafOf(stringify), {}) == [l];
    KeyWrong(actual, expected, path, LeafOf(stringify), {}, Visited(actual, expected, {}), k);
  }

  /** A key only the expected object has, whose value is not `undefined`, is reported. */
  lemma ExpectedKeyReported(actual: Value, expected: Value, path: string, stringify: Value -> string, k: string)
    requires actual.Obj? && expected.Obj?
    requires k in Keys(expected) && k !in Keys(actual) && Get(expected, k) != Undefined
    ensures SomeWrong(LinesSpec(actual, expected, path, stringify))
  {
    assert k in Visited(actual, expected, {});
    AbsentIsUndefined(actual, k);
    var l := Leaf(Undefined, Get(expected, k), KeyPath(path, k), stringify);
    assert l[0] == 'W';
    assert Lines(Get(actual, k), Get(expected, k), KeyPath(path, k), LeafOf(stringify), {}) == [l];
    KeyWrong(actual, expected, path, LeafOf(stringify), {}, Visited(actual, expected, {}), k);
  }

  // ---------------------------------------------------------------------
  // Each index and each key once
  // ---------------------------------------------------------------------


  lemma DigitCharValue(d: nat)
    requires d < 10
    ensures DigitChar(d) as int == '0' as int + d
  {
    if d == 0 {} else if d == 1 {} else if d == 2 {} else if d == 3 {} else if d == 4 {}
    else if d == 5 {} else if d == 6 {} else if d == 7 {} else if d == 8 {} else {}
  }

  /** Different numbers have different decimal texts. */
  lemma {:induction false} NatToStringInjective(m: nat, n: nat)
    requires NatToString(m) == NatToString(n)
    ensures m == n
  {
    var sm := NatToString(m);
    if m < 10 && n < 10 {
      DigitCharValue(m);
      DigitCharValue(n);
    } else if m >= 10 && n >= 10 {
      assert sm[|sm| - 1] == DigitChar(m % 10);
      assert sm[|sm| - 1] == DigitChar(n % 10);
      DigitCharValue(m % 10);
      DigitCharValue(n % 10);
      assert sm[..|sm| - 1] == NatToString(m / 10);
      assert sm[..|sm| - 1] == NatToString(n / 10);
      NatToStringInjective(m / 10, n / 10);
    }
  }

  /** Two indices of an array have different paths. */
  lemma IndexPathsDistinct(path: string, i: nat, j: nat)
    requires IndexPath(path, i) == IndexPath(path, j)
    ensures i == j
  {
    var p := IndexPath(path, i);
    var si := NatToString(i);
    var sj := NatToString(j);
    assert p[|path| + 1..|p| - 1] == si;
    assert p[|path| + 1..|p| - 1] == sj;
    NatToStringInjective(i, j);
  }

  /** An array lists each index once; an object is taken to list each key once. */
  lemma KeysDistinct(v: Value)
    requires v.Obj? ==> NoDuplicates(Keys(v))
    ensures NoDuplicates(Keys(v))
  {
    if v.Arr? {
      forall i, j | 0 <= i < j < |Keys(v)|
        ensures Keys(v)[i] != Keys(v)[j]
      {
        if Keys(v)[i] == Keys(v)[j] {
          NatToStringInjective(i, j);
        }
      }
    }
  }

  lemma {:induction false} UnseenDistinct(keys: seq<string>, seen: set<string>)
    requires NoDuplicates(keys)
    ensures NoDuplicates(Unseen(keys, seen))
  {
    if keys != [] {
      assert NoDuplicates(keys[1..]) by {
        forall i, j | 0 <= i < j < |keys[1..]|
          ensures keys[1..][i] != keys[1..][j]
        {
          assert keys[1..][i] == keys[i + 1] && keys[1..][j] == keys[j + 1];
        }
      }
      UnseenDistinct(keys[1..], seen);
      UnseenHas(keys[1..], seen, keys[0]);
      assert keys[0] !in keys[1..] by {
        forall j | 0 <= j < |keys[1..]|
          ensures keys[1..][j] != keys[0]
        {
          assert keys[1..][j] == keys[j + 1];
        }
      }
      var rest := Unseen(keys[1..], seen);
      var u := Unseen(keys, seen);
      if keys[0] !in seen {
        assert u == [keys[0]] + rest;
        forall i, j | 0 <= i < j < |u|
          ensures u[i] != u[j]
        {
          assert u[j] == rest[j - 1];
          if i > 0 {
            assert u[i] == rest[i - 1];
          }
        }
      } else {
        assert u == [] + rest;
      }
    }
  }

  /**
   * The two loops visit the keys of `expected` first, in order, then the
   * keys only `actual` has: every key of either value, and each once.
   */
  lemma VisitedOnce(actual: Value, expected: Value)
    requires actual.Obj? ==> NoDuplicates(Keys(actual))
    requires NoDuplicates(Keys(expected))
    ensures Visited(actual, expected, {})[..|Keys(expected)|] == Keys(expected)
    ensures forall k :: k in Visited(actual, expected, {}) <==> k in Keys(expected) || k in Keys(actual)
    ensures NoDuplicates(Visited(actual, expected, {}))
  {
    var ek := Keys(expected);
    var ak := Keys(actual);
    var seen := SetOf(ek) + {};
    assert Visited(actual, expected, {}) == ek + Unseen(ak, seen);
    forall k
      ensures k in ek + Unseen(ak, seen) <==> k in ek || k in ak
    {
      SetOfHas(ek, k);
      UnseenHas(ak, seen, k);
    }
    KeysDistinct(actual);
    UnseenDistinct(ak, seen);
    forall i, j | 0 <= i < |ek| && 0 <= j < |Unseen(ak, seen)|
      ensures ek[i] != Unseen(ak, seen)[j]
    {
      UnseenHas(ak, seen, Unseen(ak, seen)[j]);
      SetOfHas(ek, Unseen(ak, seen)[j]);
    }
    NoDuplicatesAppend(ek, Unseen(ak, seen));
  }


  // ---------------------------------------------------------------------
  // The `seen` record as written
  // ---------------------------------------------------------------------

  /** As written, a key named like an `Object.prototype` member that `expected` lacks is never visited. */
  lemma InheritedNamesSkipped(actual: Value, expected: Value, k: string)
    requires k in PrototypeNames
    ensures k !in Unseen(Keys(actual), SetOf(Keys(expected)) + PrototypeNames)
  {
    UnseenHas(Keys(actual), SetOf(Keys(expected)) + PrototypeNames, k);
  }

  /**
   * An actual instruction with an extra `constructor` property: as
   * written nothing is reported and the assertion passes; with `seen`
   * answering only for the keys of `expected` the extra property is a
   * mismatch and the top-level call fails.
   */
  lemma PrototypeKeySkipped(stringify: Value -> string)
    ensures LinesAsWritten(Obj([Prop("constructor", Num(1))]), Obj([]), "instruction", stringify) == []
    ensures Failure("instruction", LinesAsWritten(Obj([Prop("constructor", Num(1))]), Obj([]), "instruction", stringify)) == None
    ensures Failure("instruction", LinesSpec(Obj([Prop("constructor", Num(1))]), Obj([]), "instruction", stringify)).Some?
  {
    var a := Obj([Prop("constructor", Num(1))]);
    var e := Obj([]);
    assert Keys(a) == ["constructor"];
    assert Keys(e) == [];
    assert "constructor" in PrototypeNames;
    assert Unseen(Keys(a), SetOf(Keys(e)) + PrototypeNames) == [];
    assert Visited(a, e, PrototypeNames) == [];
    assert Lookup(a.props, "constructor") == Num(1);
    MissingKeyReported(a, e, "instruction", stringify, "constructor");
  }
}
