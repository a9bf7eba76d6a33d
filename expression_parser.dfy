/**
 * The runtime's expression parser: three memo tables chosen by binding
 * type, pre-seeding with `cache`, and `parseCore`, which turns a dotted
 * path such as `a.b().c` into a left-nested chain of scope and member
 * access or call nodes.
 */
module ExpressionParser {
  import opened Common

  // The `BindingType` flags.
  const None_: int := 0
  const Interpolation: int := 2048
  const IsRef: int := 1280
  const IsIterator: int := 512
  const IsCustom: int := 256
  const IsFunction: int := 128
  const IsEvent: int := 64
  const IsProperty: int := 32
  const IsCommand: int := 16
  const IsPropertyCommand: int := 48
  const IsEventCommand: int := 80
  const DelegationStrategyDelta: int := 6
  const Command: int := 15
  const OneTimeCommand: int := 49
  const ToViewCommand: int := 50
  const FromViewCommand: int := 51
  const TwoWayCommand: int := 52
  const BindCommand: int := 53
  const TriggerCommand: int := 86
  const CaptureCommand: int := 87
  const DelegateCommand: int := 88
  const CallCommand: int := 153
  const OptionsCommand: int := 26
  const ForCommand: int := 539
  const CustomCommand: int := 284

  /** The `$kind` values `cache` dispatches on. */
  const InterpolationKind: int := 24
  const ForOfStatementKind: int := 6199

  /** The AST nodes this parser builds, and any other node handed to `cache`. */
  datatype Expr =
    | AccessScope(name: string)
    | CallScope(name: string, args: seq<Expr>)
    | AccessMember(obj: Expr, name: string)
    | CallMember(obj: Expr, name: string, args: seq<Expr>)
    | EmptyLiteral                          // PrimitiveLiteral.$empty
    | Node(kind: int, text: string)         // another AST node, by its `$kind`

  /** The three memo tables. */
  datatype Table = ExpressionTable | ForOfTable | InterpolationTable

  datatype Tables = Tables(expressions: map<string, Expr>, forOf: map<string, Expr>, interpolations: map<string, Expr>)

  function Get(s: Tables, t: Table): map<string, Expr>
  {
    match t
    case ExpressionTable => s.expressions
    case ForOfTable => s.forOf
    case InterpolationTable => s.interpolations
  }

  function Set(s: Tables, t: Table, key: string, e: Expr): (r: Tables)
    ensures Get(r, t) == Get(s, t)[key := e]
    ensures forall u :: u != t ==> Get(r, u) == Get(s, u)
  {
    match t
    case ExpressionTable => s.(expressions := s.expressions[key := e])
    case ForOfTable => s.(forOf := s.forOf[key := e])
    case InterpolationTable => s.(interpolations := s.interpolations[key := e])
  }

  /** The table `parse` consults for a binding type. */
  function TableFor(bindingType: int): Table
  {
    if bindingType == Interpolation then InterpolationTable
    else if bindingType == ForCommand then ForOfTable
    else ExpressionTable
  }

  /** The table `cache` files a node under, by its `$kind`. */
  function CacheTable(e: Expr): Table
  {
    if e.Node? && e.kind == InterpolationKind then InterpolationTable
    else if e.Node? && e.kind == ForOfStatementKind then ForOfTable
    else ExpressionTable
  }

  // ---------------------------------------------------------------------
  // The empty-expression mask
  // ---------------------------------------------------------------------

  /**
   * `bindingType & (BindCommand | OneTimeCommand | ToViewCommand)`, that is
   * `bindingType & 55`: bits 0, 1, 2, 4 and 5, read in two's complement
   * (division here is floor division). Truncation to 32 bits leaves these
   * bits alone.
   */
  function EmptyMask(bindingType: int): int
  {
    bindingType % 2 + 2 * ((bindingType / 2) % 2) + 4 * ((bindingType / 4) % 2)
      + 16 * ((bindingType / 16) % 2) + 32 * ((bindingType / 32) % 2)
  }

  /** Bit `d` of `64 q + r` is that of `r`, for the divisors the mask reads. */
  lemma LowBitsShift(q: int, r: int)
    requires 0 <= r < 64
    ensures (64 * q + r) % 2 == r % 2
    ensures ((64 * q + r) / 2) % 2 == (r / 2) % 2
    ensures ((64 * q + r) / 4) % 2 == (r / 4) % 2
    ensures ((64 * q + r) / 16) % 2 == (r / 16) % 2
    ensures ((64 * q + r) / 32) % 2 == (r / 32) % 2
  {
    ParityShift(32 * q, r);
    assert (64 * q + r) / 2 == 2 * (16 * q) + r / 2;
    ParityShift(16 * q, r / 2);
    assert (64 * q + r) / 4 == 2 * (8 * q) + r / 4;
    ParityShift(8 * q, r / 4);
    assert (64 * q + r) / 16 == 2 * (2 * q) + r / 16;
    ParityShift(2 * q, r / 16);
    assert (64 * q + r) / 32 == 2 * q + r / 32;
    ParityShift(q, r / 32);
  }

  /** Adding an even number keeps the parity. */
  lemma ParityShift(h: int, y: int)
    ensures (2 * h + y) % 2 == y % 2
  {
  }

  /** Adding a multiple of 64 leaves the mask alone. */
  lemma EmptyMaskPeriodic(q: int, r: int)
    requires 0 <= r < 64
    ensures EmptyMask(64 * q + r) == EmptyMask(r)
  {
    LowBitsShift(q, r);
  }

  /**
   * Only the six low bits of the binding type matter, so the 32-bit
   * truncation JavaScript applies first cannot change the outcome, and the
   * mask never exceeds 55.
   */
  lemma EmptyMaskLowBits(bindingType: int)
    ensures 0 <= EmptyMask(bindingType) <= 55
    ensures EmptyMask(bindingType) == EmptyMask(bindingType % 64)
    ensures EmptyMask(bindingType) == EmptyMask(bindingType % 0x1_0000_0000)
  {
    var q := bindingType / 64;
    var r := bindingType % 64;
    EmptyMaskPeriodic(q, r);
    var w := bindingType / 0x1_0000_0000;
    var u := bindingType % 0x1_0000_0000;
    assert u == 64 * (q - 0x400_0000 * w) + r;
    EmptyMaskPeriodic(q - 0x400_0000 * w, r);
  }

  /**
   * The mask is `BindCommand | OneTimeCommand | ToViewCommand`, that is 55,
   * and each of those three command types lets an empty expression through
   * uncached.
   */
  lemma EmptyAllowedFor()
    ensures EmptyMask(BindCommand) == 53 && EmptyMask(OneTimeCommand) == 49 && EmptyMask(ToViewCommand) == 50
    ensures EmptyMask(55) == 55
  {
    assert 53 / 2 == 26 && 53 / 4 == 13 && 53 / 16 == 3 && 53 / 32 == 1;
    assert 49 / 2 == 24 && 49 / 4 == 12 && 49 / 16 == 3 && 49 / 32 == 1;
    assert 50 / 2 == 25 && 50 / 4 == 12 && 50 / 16 == 3 && 50 / 32 == 1;
    assert 55 / 2 == 27 && 55 / 4 == 13 && 55 / 16 == 3 && 55 / 32 == 1;
  }
  /**
   * The two-way, from-view and trigger commands share bits with the mask
   * too, so an empty expression with those types is answered uncached.
   */
  lemma EmptyAllowedForOther()
    ensures EmptyMask(TwoWayCommand) == 52 && EmptyMask(FromViewCommand) == 51 && EmptyMask(TriggerCommand) == 22
  {
    assert 52 / 2 == 26 && 52 / 4 == 13 && 52 / 16 == 3 && 52 / 32 == 1;
    assert 51 / 2 == 25 && 51 / 4 == 12 && 51 / 16 == 3 && 51 / 32 == 1;
    assert 86 / 2 == 43 && 86 / 4 == 21 && 86 / 16 == 5 && 86 / 32 == 2;
  }
  /** Flags that only use bits above 5 miss the mask entirely. */
  lemma EmptyRejectedFor()
    ensures EmptyMask(None_) == 0 && EmptyMask(IsRef) == 0 && EmptyMask(IsIterator) == 0 && EmptyMask(IsEvent) == 0
  {
    assert 1280 / 2 == 640 && 1280 / 4 == 320 && 1280 / 16 == 80 && 1280 / 32 == 40;
    assert 512 / 2 == 256 && 512 / 4 == 128 && 512 / 16 == 32 && 512 / 32 == 16;
    assert 64 / 2 == 32 && 64 / 4 == 16 && 64 / 16 == 4 && 64 / 32 == 2;
  }

  // ---------------------------------------------------------------------
  // parseCore, as a specification
  // ---------------------------------------------------------------------

  /** A segment names a call when it ends with `()`. */
  predicate IsCall(segment: string)
  {
    EndsWith(segment, "()")
  }

  /** The name of a call segment: the segment with its first `()` removed. */
  function CallName(segment: string): string
  {
    ReplaceFirst(segment, "()", "")
  }

  /** The innermost node, for the first segment. */
  function Scope(segment: string): Expr
  {
    if IsCall(segment) then CallScope(CallName(segment), []) else AccessScope(segment)
  }

  /** One more member node around `obj`. */
  function Member(obj: Expr, segment: string): Expr
  {
    if IsCall(segment) then CallMember(obj, CallName(segment), []) else AccessMember(obj, segment)
  }

  /** The chain `parseCore` builds from the `.`-separated parts. */
  function Chain(parts: seq<string>): Expr
    requires |parts| >= 1
  {
    if |parts| == 1 then Scope(parts[0])
    else Member(Chain(parts[..|parts| - 1]), parts[|parts| - 1])
  }

  lemma ChainStep(parts: seq<string>, i: nat)
    requires 1 <= i < |parts|
    ensures Chain(parts[..i + 1]) == Member(Chain(parts[..i]), parts[i])
  {
    assert parts[..i + 1][..i] == parts[..i];
  }

  function ParseCoreSpec(expression: string): Expr
  {
    Chain(Split(expression, '.'))
  }

  /** The (name, is-call) pairs along a chain, innermost first. */
  function Spine(e: Expr): seq<(string, bool)>
  {
    match e
    case AccessScope(n) => [(n, false)]
    case CallScope(n, _) => [(n, true)]
    case AccessMember(o, n) => Spine(o) + [(n, false)]
    case CallMember(o, n, _) => Spine(o) + [(n, true)]
    case EmptyLiteral => []
    case Node(_, _) => []
  }

  /** A scope node innermost and member nodes around it, none with arguments. */
  predicate WellNested(e: Expr)
  {
    match e
    case AccessScope(_) => true
    case CallScope(_, args) => args == []
    case AccessMember(o, _) => WellNested(o)
    case CallMember(o, _, args) => args == [] && WellNested(o)
    case EmptyLiteral => false
    case Node(_, _) => false
  }

  /** The text a chain stands for: its names joined by `.`, calls with `()`. */
  function Unparse(e: Expr): string
  {
    match e
    case AccessScope(n) => n
    case CallScope(n, _) => n + "()"
    case AccessMember(o, n) => Unparse(o) + "." + n
    case CallMember(o, n, _) => Unparse(o) + "." + n + "()"
    case EmptyLiteral => ""
    case Node(_, t) => t
  }

  /**
   * `parseCore` builds one node per segment, a scope node innermost and
   * member nodes outside; a segment gives a call node exactly when it ends
   * with `()`, named by the segment without its first `()`, and otherwise
   * keeps the segment verbatim as its name.
   */
  lemma {:induction false} ChainShape(parts: seq<string>)
    requires |parts| >= 1
    ensures WellNested(Chain(parts))
    ensures |Spine(Chain(parts))| == |parts|
    ensures forall k :: 0 <= k < |parts| ==>
      Spine(Chain(parts))[k] == (if IsCall(parts[k]) then CallName(parts[k]) else parts[k], IsCall(parts[k]))
  {
    if |parts| > 1 {
      var init := parts[..|parts| - 1];
      ChainShape(init);
      forall k | 0 <= k < |parts| - 1
        ensures init[k] == parts[k]
      {
      }
    }
  }

  /** A segment whose only `()`, if any, is the trailing one. */
  predicate Plain(segment: string)
  {
    IsCall(segment) ==> IndexOf(segment, "()") == Some(|segment| - 2)
  }

  lemma SegmentRoundTrip(segment: string)
    requires Plain(segment)
    ensures IsCall(segment) ==> CallName(segment) + "()" == segment
  {
    if IsCall(segment) {
      var i := |segment| - 2;
      assert segment[i..] == "()";
      assert CallName(segment) == segment[..i] + "" + segment[i + 2..];
      assert segment[..i] + segment[i..] == segment;
    }
  }

  /** Unparsing the chain of plain parts joins them back with `.`. */
  lemma {:induction false} ChainUnparse(parts: seq<string>)
    requires |parts| >= 1
    requires forall k :: 0 <= k < |parts| ==> Plain(parts[k])
    ensures Unparse(Chain(parts)) == JoinWith(parts, '.')
  {
    var last := parts[|parts| - 1];
    SegmentRoundTrip(last);
    if |parts| > 1 {
      var init := parts[..|parts| - 1];
      ChainUnparse(init);
      JoinSnoc(init, last, '.');
      assert init + [last] == parts;
      if IsCall(last) {
        assert Unparse(Chain(parts)) == JoinWith(init, '.') + "." + CallName(last) + "()";
        AppendAssoc(JoinWith(init, '.') + ".", CallName(last), "()");
      }
    }
  }

  /** Joining with one more part at the end. */
  lemma {:induction false} JoinSnoc(init: seq<string>, last: string, sep: char)
    requires |init| >= 1
    ensures JoinWith(init + [last], sep) == JoinWith(init, sep) + [sep] + last
  {
    if |init| == 1 {
      assert init + [last] == [init[0], last];
      assert [init[0], last][1..] == [last];
    } else {
      assert (init + [last])[1..] == init[1..] + [last];
      JoinSnoc(init[1..], last, sep);
      AppendAssoc(init[0] + [sep], JoinWith(init[1..], sep), [sep] + last);
      AppendAssoc(init[0] + [sep] + JoinWith(init[1..], sep), [sep], last);
      AppendAssoc(JoinWith(init[1..], sep), [sep], last);
    }
  }

  /**
   * Round trip: when no segment holds `()` except as its ending, the text
   * of the parsed chain is the expression itself.
   */
  lemma ParseCoreRoundTrip(expression: string)
    requires forall k :: 0 <= k < |Split(expression, '.')| ==> Plain(Split(expression, '.')[k])
    ensures Unparse(ParseCoreSpec(expression)) == expression
  {
    ChainUnparse(Split(expression, '.'));
    JoinSplit(expression, '.');
  }

  // ---------------------------------------------------------------------
  // parse and cache, as a specification
  // ---------------------------------------------------------------------

  /** `parse`: the node returned and the tables afterwards. */
  function ParseSpec(s: Tables, expression: string, bindingType: int): (Expr, Tables)
  {
    var t := TableFor(bindingType);
    if t == ExpressionTable && |expression| == 0 && EmptyMask(bindingType) != 0 then (EmptyLiteral, s)
    else if expression in Get(s, t) then (Get(s, t)[expression], s)
    else
      var e := ParseCoreSpec(expression);
      (e, Set(s, t, expression, e))
  }

  /** `cache`: each entry in turn overwrites its key in the table its `$kind` selects. */
  function CacheAll(s: Tables, entries: seq<(string, Expr)>): Tables
    decreases |entries|
  {
    if entries == [] then s
    else CacheAll(Set(s, CacheTable(entries[0].1), entries[0].0, entries[0].1), entries[1..])
  }

  /**
   * `parse` reads and fills only the table its binding type selects; on a
   * hit it returns the stored node and changes nothing; on a miss it stores
   * what `parseCore` built, so the table only grows.
   */
  lemma ParseTouchesOneTable(s: Tables, expression: string, bindingType: int)
    ensures var (r, s') := ParseSpec(s, expression, bindingType);
            var t := TableFor(bindingType);
            var shortcut := t == ExpressionTable && |expression| == 0 && EmptyMask(bindingType) != 0;
            && (forall u :: u != t ==> Get(s', u) == Get(s, u))
            && (shortcut ==> r == EmptyLiteral && s' == s)
            && (!shortcut && expression in Get(s, t) ==> r == Get(s, t)[expression] && s' == s)
            && (!shortcut && expression !in Get(s, t) ==> r == ParseCoreSpec(expression) && Get(s', t) == Get(s, t)[expression := r])
            && Get(s, t).Keys <= Get(s', t).Keys
  {
  }

  /** Memoisation: parsing the same text with the same type again returns the same node and changes nothing. */
  lemma ParseIdempotent(s: Tables, expression: string, bindingType: int)
    ensures var (r, s') := ParseSpec(s, expression, bindingType);
            ParseSpec(s', expression, bindingType) == (r, s')
  {
  }

  /** An empty expression of a command type is the empty literal and is never cached. */
  lemma EmptyExpressionNotCached(s: Tables, bindingType: int)
    requires bindingType != Interpolation && bindingType != ForCommand && EmptyMask(bindingType) != 0
    ensures ParseSpec(s, "", bindingType) == (EmptyLiteral, s)
  {
  }

  /** Interpolations and `for` bindings go through their own tables even for an empty text. */
  lemma EmptyInterpolationCached(s: Tables)
    ensures "" in Get(ParseSpec(s, "", Interpolation).1, InterpolationTable)
  {
  }

  lemma {:induction false} CacheAllAppend(s: Tables, a: seq<(string, Expr)>, b: seq<(string, Expr)>)
    ensures CacheAll(s, a + b) == CacheAll(CacheAll(s, a), b)
    decreases |a|
  {
    if a == [] {
      assert a + b == b;
    } else {
      assert (a + b)[1..] == a[1..] + b;
      CacheAllAppend(Set(s, CacheTable(a[0].1), a[0].0, a[0].1), a[1..], b);
    }
  }

  /** `cache` leaves a key it was not given unchanged in every table. */
  lemma {:induction false} CacheUntouched(s: Tables, entries: seq<(string, Expr)>, key: string, u: Table)
    requires forall k :: 0 <= k < |entries| ==> entries[k].0 != key
    ensures key in Get(CacheAll(s, entries), u) <==> key in Get(s, u)
    ensures key in Get(s, u) ==> Get(CacheAll(s, entries), u)[key] == Get(s, u)[key]
    decreases |entries|
  {
    if entries != [] {
      assert forall k :: 0 <= k < |entries[1..]| ==> entries[1..][k] == entries[k + 1];
      CacheUntouched(Set(s, CacheTable(entries[0].1), entries[0].0, entries[0].1), entries[1..], key, u);
    }
  }

  /**
   * After `cache`, the key of its last entry for that key holds that
   * entry's node in the table the node's `$kind` selects.
   */
  lemma {:induction false} CacheLastWins(s: Tables, entries: seq<(string, Expr)>, k: nat)
    requires k < |entries|
    requires forall j :: k < j < |entries| ==> entries[j].0 != entries[k].0
    ensures entries[k].0 in Get(CacheAll(s, entries), CacheTable(entries[k].1))
    ensures Get(CacheAll(s, entries), CacheTable(entries[k].1))[entries[k].0] == entries[k].1
    decreases |entries|
  {
    var s1 := Set(s, CacheTable(entries[0].1), entries[0].0, entries[0].1);
    assert forall j :: 0 <= j < |entries[1..]| ==> entries[1..][j] == entries[j + 1];
    if k == 0 {
      CacheUntouched(s1, entries[1..], entries[0].0, CacheTable(entries[0].1));
    } else {
      CacheLastWins(s1, entries[1..], k - 1);
    }
  }

  // ---------------------------------------------------------------------
  // The parser
  // ---------------------------------------------------------------------

  /** `ExpressionParser`: the three lookup tables, updated in place. */
  class ExpressionParser {
    var expressionLookup: map<string, Expr>
    var forOfLookup: map<string, Expr>
    var interpolationLookup: map<string, Expr>

    function State(): Tables
      reads this
    {
      Tables(expressionLookup, forOfLookup, interpolationLookup)
    }

    constructor ()
      ensures State() == Tables(map[], map[], map[])
    {
      expressionLookup := map[];
      forOfLookup := map[];
      interpolationLookup := map[];
    }

    method Parse(expression: string, bindingType: int) returns (r: Expr)
      modifies this
      ensures (r, State()) == ParseSpec(old(State()), expression, bindingType)
    {
      if bindingType == Interpolation {
        if expression in interpolationLookup {
          r := interpolationLookup[expression];
        } else {
          r := ParseCore(expression);
          interpolationLookup := interpolationLookup[expression := r];
        }
      } else if bindingType == ForCommand {
        if expression in forOfLookup {
          r := forOfLookup[expression];
        } else {
          r := ParseCore(expression);
          forOfLookup := forOfLookup[expression := r];
        }
      } else {
        if |expression| == 0 && EmptyMask(bindingType) != 0 {
          return EmptyLiteral;
        }
        if expression in expressionLookup {
          r := expressionLookup[expression];
        } else {
          r := ParseCore(expression);
          expressionLookup := expressionLookup[expression := r];
        }
      }
    }

    /** `cache`: files every entry under the table its `$kind` selects. */
    method Cache(expressions: seq<(string, Expr)>)
      modifies this
      ensures State() == CacheAll(old(State()), expressions)
    {
      var i := 0;
      while i < |expressions|
        invariant 0 <= i <= |expressions|
        invariant State() == CacheAll(old(State()), expressions[..i])
      {
        var (expression, expr) := expressions[i];
        if expr.Node? && expr.kind == InterpolationKind {
          interpolationLookup := interpolationLookup[expression := expr];
        } else if expr.Node? && expr.kind == ForOfStatementKind {
          forOfLookup := forOfLookup[expression := expr];
        } else {
          expressionLookup := expressionLookup[expression := expr];
        }
        CacheAllAppend(old(State()), expressions[..i], [expressions[i]]);
        assert expressions[..i + 1] == expressions[..i] + [expressions[i]];
        i := i + 1;
      }
      assert expressions[..i] == expressions;
    }

    /** `parseCore`: the scope node for the first part, then one member node per further part. */
    method ParseCore(expression: string) returns (current: Expr)
      ensures current == ParseCoreSpec(expression)
    {
      var parts := Split(expression, '.');
      var firstPart := parts[0];
      if IsCall(firstPart) {
        current := CallScope(CallName(firstPart), []);
      } else {
        current := AccessScope(parts[0]);
      }
      var index := 1;
      assert parts[..1] == [parts[0]];
      while index < |parts|
        invariant 1 <= index <= |parts|
        invariant current == Chain(parts[..index])
      {
        var currentPart := parts[index];
        ChainStep(parts, index);
        if IsCall(currentPart) {
          current := CallMember(current, CallName(currentPart), []);
        } else {
          current := AccessMember(current, parts[index]);
        }
        index := index + 1;
      }
      assert parts[..index] == parts;
    }
  }
}
