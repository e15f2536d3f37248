/**
  The variable resolver: up to ten rewriting passes, each replacing every
  `${expr}` of a string with the value of `expr`. `self:a.b` is looked up in
  the parsed descriptor; every other expression (`opt:`, `env:`, `file(`, or
  anything else) resolves only to its default, the text after its first
  top-level comma, and otherwise stays as the placeholder it came from.
 */
module VariableResolver {
  import opened Wrappers
  import opened Text
  import opened Tree

  // ---------------------------------------------------------------------------
  // findTopLevelComma

  /** The three locals of the `findTopLevelComma` loop. */
  datatype QuoteState = QuoteState(depth: int, inSingleQuote: bool, inDoubleQuote: bool)

  const QuoteStart := QuoteState(0, false, false)

  /** What reading `ch` does to the scan state, unless `ch` ends the scan. */
  function ScanChar(st: QuoteState, ch: char): QuoteState
  {
    if ch == '\'' && !st.inDoubleQuote then st.(inSingleQuote := !st.inSingleQuote)
    else if ch == '"' && !st.inSingleQuote then st.(inDoubleQuote := !st.inDoubleQuote)
    else if !st.inSingleQuote && !st.inDoubleQuote then
      if ch == '{' then st.(depth := st.depth + 1)
      else if ch == '}' then st.(depth := st.depth - 1)
      else st
    else st
  }

  /** The scan state just before `expr[i]` is read. */
  function ScanState(expr: string, i: nat): QuoteState
    requires i <= |expr|
  {
    if i == 0 then QuoteStart else ScanChar(ScanState(expr, i - 1), expr[i - 1])
  }

  /** `expr[i]` is a comma outside both kinds of quotes and outside every brace. */
  predicate IsTopLevelComma(expr: string, i: nat)
    requires i < |expr|
  {
    var st := ScanState(expr, i);
    expr[i] == ',' && !st.inSingleQuote && !st.inDoubleQuote && st.depth == 0
  }

  /** The first top-level comma at or after `i`, or -1, carrying the scan state `st` at `i`. */
  function CommaFrom(expr: string, i: nat, st: QuoteState): int
    requires i <= |expr|
    decreases |expr| - i
  {
    if i == |expr| then -1
    else if expr[i] == ',' && !st.inSingleQuote && !st.inDoubleQuote && st.depth == 0 then i
    else CommaFrom(expr, i + 1, ScanChar(st, expr[i]))
  }

  /** `CommaFrom` finds the least top-level comma at or after `i`. */
  lemma {:induction false} CommaFromLeast(expr: string, i: nat, st: QuoteState)
    requires i <= |expr| && st == ScanState(expr, i)
    ensures var r := CommaFrom(expr, i, st);
      (r == -1 || (i <= r < |expr| && IsTopLevelComma(expr, r))) &&
      forall k :: i <= k < (if r == -1 then |expr| else r) ==> !IsTopLevelComma(expr, k)
    decreases |expr| - i
  {
    if i < |expr| && !IsTopLevelComma(expr, i) {
      CommaFromLeast(expr, i + 1, ScanChar(st, expr[i]));
    }
  }

  /** The least index of a top-level comma, or -1 when there is none. */
  function TopLevelComma(expr: string): (r: int)
    ensures r == -1 || (0 <= r < |expr| && IsTopLevelComma(expr, r))
    ensures forall k :: 0 <= k < (if r == -1 then |expr| else r) ==> !IsTopLevelComma(expr, k)
  {
    CommaFromLeast(expr, 0, QuoteStart);
    CommaFrom(expr, 0, QuoteStart)
  }

  /** `findTopLevelComma`: one pass updating the brace depth and two quote flags,
      returning at the first comma that is at depth 0 and outside quotes. */
  method FindTopLevelComma(expr: string) returns (r: int)
    ensures r == TopLevelComma(expr)
  {
    var depth := 0;
    var inSingleQuote := false;
    var inDoubleQuote := false;

    for i := 0 to |expr|
      invariant QuoteState(depth, inSingleQuote, inDoubleQuote) == ScanState(expr, i)
      invariant forall k :: 0 <= k < i ==> !IsTopLevelComma(expr, k)
    {
      var ch := expr[i];
      if ch == '\'' && !inDoubleQuote {
        inSingleQuote := !inSingleQuote;
      } else if ch == '"' && !inSingleQuote {
        inDoubleQuote := !inDoubleQuote;
      } else if !inSingleQuote && !inDoubleQuote {
        if ch == '{' {
          depth := depth + 1;
        } else if ch == '}' {
          depth := depth - 1;
        } else if ch == ',' && depth == 0 {
          assert IsTopLevelComma(expr, i);
          return i;
        }
      }
    }
    return -1;
  }

  /** An expression without any comma has no top-level comma. */
  lemma NoCommaNoSplit(expr: string)
    requires ',' !in expr
    ensures TopLevelComma(expr) == -1
  {
  }

  /** Reading characters other than quotes and braces leaves the scan state alone. */
  lemma {:induction false} PlainScan(expr: string, i: nat)
    requires i <= |expr|
    requires forall k :: 0 <= k < i ==> expr[k] !in "'\"{}"
    ensures ScanState(expr, i) == QuoteStart
  {
    if i > 0 {
      PlainScan(expr, i - 1);
    }
  }

  /** When the text before a comma has no comma, quote or brace, that comma is the split point. */
  lemma FirstPlainComma(a: string, b: string)
    requires forall k :: 0 <= k < |a| ==> a[k] !in ",'\"{}"
    ensures TopLevelComma(a + "," + b) == |a|
  {
    var expr := a + "," + b;
    assert forall k :: 0 <= k < |a| ==> expr[k] == a[k];
    PlainScan(expr, |a|);
    assert IsTopLevelComma(expr, |a|);
  }

  // ---------------------------------------------------------------------------
  // lookupPath

  /** The value at a dot-separated path: one record per segment, an own key each time. */
  function Lookup(tree: Node, dotPath: string): Option<Node>
  {
    Get(tree, Split(dotPath, '.'))
  }

  /** `lookupPath`: split at dots, then descend with `current`, giving up as soon
      as `current` is missing or is not a record. */
  method LookupPath(tree: Node, dotPath: string) returns (r: Option<Node>)
    ensures r == Lookup(tree, dotPath)
  {
    var parts := Split(dotPath, '.');
    var current := Some(tree);
    for j := 0 to |parts|
      invariant current == Get(tree, parts[..j])
    {
      if current.None? || !current.value.Map? {
        GetAppend(tree, parts[..j], parts[j..]);
        assert parts[..j] + parts[j..] == parts;
        return None;
      }
      GetAppend(tree, parts[..j], [parts[j]]);
      assert parts[..j + 1] == parts[..j] + [parts[j]];
      var m := current.value.entries;
      current := if parts[j] in m then Some(m[parts[j]]) else None;
    }
    assert parts[..|parts|] == parts;
    return current;
  }

  // ---------------------------------------------------------------------------
  // resolveExpression

  /** An expression split at its first top-level comma into the main part and the default. */
  datatype Parts = Parts(main: string, default: Option<string>)

  /** With a top-level comma, both sides are trimmed and the default loses one
      layer of matching quotes; without one, the whole untrimmed expression is the main part. */
  function SplitDefault(expr: string): Parts
  {
    var c := TopLevelComma(expr);
    if c >= 0 then Parts(Trim(expr[..c]), Some(Unquote(Trim(expr[c + 1..]))))
    else Parts(expr, None)
  }

  /** The placeholder an expression came from. */
  function Placeholder(expr: string): string
  {
    "${" + expr + "}"
  }

  /** `resolveExpression`. Its `opt:`, `env:` and `file(` branches return the
      same thing as its last one, so only `self:` is told apart here. */
  function ResolveExpression(expr: string, tree: Node): string
  {
    var p := SplitDefault(expr);
    var fallback := if p.default.Some? then p.default.value else Placeholder(expr);
    if "self:" <= p.main then
      match Lookup(tree, p.main[5..])
      case Some(v) => Stringify(v)
      case None => fallback
    else fallback
  }

  /** Only a `self:` expression consults the tree; every other one resolves to
      its default, or to its own placeholder when it has none. */
  lemma NonSelfIgnoresTree(expr: string, t1: Node, t2: Node)
    requires !("self:" <= SplitDefault(expr).main)
    ensures ResolveExpression(expr, t1) == ResolveExpression(expr, t2)
    ensures ResolveExpression(expr, t1) == SplitDefault(expr).default.GetOr(Placeholder(expr))
  {
  }

  /** `self:path,d`, with a plain path: the value at the path when it is
      found, and otherwise the default, trimmed and with one layer of
      matching quotes removed. */
  lemma SelfWithDefault(path: string, d: string, tree: Node)
    requires path != [] && !IsSpace(path[|path| - 1])
    requires forall k :: 0 <= k < |path| ==> path[k] !in ",'\"{}"
    ensures Lookup(tree, path).Some? ==>
      ResolveExpression("self:" + path + "," + d, tree) == Stringify(Lookup(tree, path).value)
    ensures Lookup(tree, path).None? ==> ResolveExpression("self:" + path + "," + d, tree) == Unquote(Trim(d))
  {
    SplitSelf(path, d);
    assert ("self:" + path)[5..] == path;
  }

  /** `self:path,d` splits at the comma right after the path. */
  lemma SplitSelf(path: string, d: string)
    requires path != [] && !IsSpace(path[|path| - 1])
    requires forall k :: 0 <= k < |path| ==> path[k] !in ",'\"{}"
    ensures SplitDefault("self:" + path + "," + d) == Parts("self:" + path, Some(Unquote(Trim(d))))
  {
    var main := "self:" + path;
    var expr := main + "," + d;
    assert forall k :: 5 <= k < |main| ==> main[k] == path[k - 5];
    FirstPlainComma(main, d);
    assert expr[..|main|] == main && expr[|main| + 1..] == d;
    TrimNone(main);
  }

  /** Without a top-level comma, an expression that does not resolve gives back its placeholder. */
  lemma UnresolvedIsVerbatim(expr: string, tree: Node)
    requires TopLevelComma(expr) == -1
    requires !("self:" <= expr) || Lookup(tree, expr[5..]).None?
    ensures ResolveExpression(expr, tree) == Placeholder(expr)
  {
  }

  /** A `self:` expression without a comma: the value at its path, or its own placeholder. */
  lemma SelfWithoutComma(path: string, tree: Node)
    requires ',' !in path
    ensures Lookup(tree, path).Some? ==> ResolveExpression("self:" + path, tree) == Stringify(Lookup(tree, path).value)
    ensures Lookup(tree, path).None? ==> ResolveExpression("self:" + path, tree) == Placeholder("self:" + path)
  {
    var expr := "self:" + path;
    assert ',' !in expr by {
      assert forall k :: 5 <= k < |expr| ==> expr[k] == path[k - 5];
    }
    NoCommaNoSplit(expr);
    assert expr[5..] == path;
  }

  // ---------------------------------------------------------------------------
  // One pass of `result.replace(/\$\{([^}]+)\}/g, ...)`

  /** `/\$\{([^}]+)\}/` matches at the start of `s` and its closing brace is `s[j]`. */
  predicate IsVarAt(s: string, j: nat)
  {
    3 <= j < |s| && s[0] == '$' && s[1] == '{' && s[j] == '}' && forall k :: 2 <= k < j ==> s[k] != '}'
  }

  /** The closing brace of the match at the start of `s`, if the pattern matches there. */
  function MatchAt(s: string): (r: Option<nat>)
    ensures r.Some? ==> IsVarAt(s, r.value)
    ensures r.None? ==> forall j :: !IsVarAt(s, j)
  {
    if |s| >= 3 && s[0] == '$' && s[1] == '{' && s[2] != '}' then
      var j := IndexOf(s, '}', 2);
      if j < |s| then Some(j) else None
    else None
  }

  /** `/\$\{[^}]+\}/.test(s)`: the pattern matches somewhere in `s`. */
  predicate HasVar(s: string)
  {
    exists i :: 0 <= i < |s| && MatchAt(s[i..]).Some?
  }

  /** `s.replace(/\$\{([^}]+)\}/g, callback)`: one global pass, left to right.
      Each match is replaced by what `callback` makes of its expression and the
      scan resumes after the match, on the original text. */
  function Replace(s: string, callback: string -> string): string
    decreases |s|
  {
    if s == [] then []
    else
      match MatchAt(s)
      case Some(j) => callback(s[2..j]) + Replace(s[j + 1..], callback)
      case None => [s[0]] + Replace(s[1..], callback)
  }

  /** A pass over a string without matches changes nothing. */
  lemma {:induction false} ReplaceNoVar(s: string, callback: string -> string)
    requires !HasVar(s)
    ensures Replace(s, callback) == s
    decreases |s|
  {
    if s != [] {
      assert s[0..] == s;
      assert !HasVar(s[1..]) by {
        forall i | 0 <= i < |s[1..]| ensures MatchAt(s[1..][i..]).None? {
          assert s[1..][i..] == s[i + 1..];
        }
      }
      ReplaceNoVar(s[1..], callback);
    }
  }

  /** Text without `$` is copied by a pass, and the pass goes on after it. */
  lemma {:induction false} ReplacePlain(a: string, b: string, callback: string -> string)
    requires '$' !in a
    ensures Replace(a + b, callback) == a + Replace(b, callback)
    decreases |a|
  {
    if a != [] {
      var s := a + b;
      assert s[0] == a[0];
      assert MatchAt(s).None?;
      assert s[1..] == a[1..] + b;
      ReplacePlain(a[1..], b, callback);
      assert a == [a[0]] + a[1..];
    } else {
      assert a + b == b;
    }
  }

  /** A placeholder is replaced by what the callback makes of its expression, and
      the text after it is scanned on its own: the replacement is not rescanned. */
  lemma ReplaceVar(e: string, b: string, callback: string -> string)
    requires e != [] && '}' !in e
    ensures Replace(Placeholder(e) + b, callback) == callback(e) + Replace(b, callback)
  {
    var s := Placeholder(e) + b;
    var j := |e| + 2;
    assert forall k :: 2 <= k < j ==> s[k] == e[k - 2];
    IndexOfIs(s, '}', 2, j);
    assert MatchAt(s) == Some(j);
    assert s[2..j] == e;
    assert s[j + 1..] == b;
  }

  /** A string without `$` has no placeholder. */
  lemma NoDollarNoVar(s: string)
    requires '$' !in s
    ensures !HasVar(s)
  {
    forall i | 0 <= i < |s| ensures MatchAt(s[i..]).None? {
      assert s[i..][0] == s[i];
    }
  }

  /** A string that starts with a placeholder has one. */
  lemma PlaceholderHasVar(e: string, b: string)
    requires e != [] && '}' !in e
    ensures HasVar(Placeholder(e) + b)
  {
    var s := Placeholder(e) + b;
    assert forall k :: 2 <= k < |e| + 2 ==> s[k] == e[k - 2];
    IndexOfIs(s, '}', 2, |e| + 2);
    assert s[0..] == s;
  }

  // ---------------------------------------------------------------------------
  // resolveVariables

  /** The hard bound on the number of passes. */
  const MaxPasses: nat := 10

  /** The callback of every pass: the value of an expression in `tree`. */
  function ExprValue(tree: Node): string -> string
  {
    expr => ResolveExpression(expr, tree)
  }

  /** At most `n` more passes, stopping early once no placeholder is left. */
  function ResolveN(s: string, callback: string -> string, n: nat): string
    decreases n
  {
    if n == 0 || !HasVar(s) then s else ResolveN(Replace(s, callback), callback, n - 1)
  }

  /** What `resolveVariables` returns. */
  function Resolved(s: string, tree: Node): string
  {
    ResolveN(s, ExprValue(tree), MaxPasses)
  }

  /** `k` passes, unconditionally. */
  function Passes(s: string, callback: string -> string, k: nat): string
    decreases k
  {
    if k == 0 then s else Passes(Replace(s, callback), callback, k - 1)
  }

  /** The loop of `resolveVariables` for a given callback: at most ten passes,
      stopping as soon as no placeholder is left. */
  method RunPasses(input: string, callback: string -> string) returns (result: string)
    ensures result == ResolveN(input, callback, MaxPasses)
  {
    result := input;
    for i := 0 to MaxPasses
      invariant ResolveN(result, callback, MaxPasses - i) == ResolveN(input, callback, MaxPasses)
    {
      if !HasVar(result) {
        break;
      }
      result := Replace(result, callback);
    }
  }

  /** `resolveVariables`: the passes with `resolveExpression` in `tree` as the callback. */
  method ResolveVariables(input: string, tree: Node) returns (result: string)
    ensures result == Resolved(input, tree)
  {
    result := RunPasses(input, ExprValue(tree));
  }

  /** Input without placeholders comes back unchanged. */
  lemma ResolvedNoVar(s: string, tree: Node)
    requires !HasVar(s)
    ensures Resolved(s, tree) == s
  {
  }

  /** `ResolveN` is some number of passes, at most `n`, after which either the
      bound is used up or no placeholder is left. */
  lemma {:induction false} ResolveNIsPasses(s: string, callback: string -> string, n: nat)
    ensures exists k :: (0 <= k <= n && ResolveN(s, callback, n) == Passes(s, callback, k)
                         && (k < n ==> !HasVar(Passes(s, callback, k))))
    decreases n
  {
    if n == 0 || !HasVar(s) {
      assert ResolveN(s, callback, n) == Passes(s, callback, 0);
    } else {
      var next := Replace(s, callback);
      ResolveNIsPasses(next, callback, n - 1);
      var k :| 0 <= k <= n - 1 && ResolveN(next, callback, n - 1) == Passes(next, callback, k)
        && (k < n - 1 ==> !HasVar(Passes(next, callback, k)));
      assert Passes(s, callback, k + 1) == Passes(next, callback, k);
    }
  }

  /** Whatever the tree holds, even a cyclic `self:` reference, the result is
      at most ten passes of the input, and it has no placeholder left unless
      all ten were used. */
  lemma ResolvedBounded(s: string, tree: Node)
    ensures exists k :: (0 <= k <= MaxPasses && Resolved(s, tree) == Passes(s, ExprValue(tree), k)
                         && (k < MaxPasses ==> !HasVar(Resolved(s, tree))))
  {
    ResolveNIsPasses(s, ExprValue(tree), MaxPasses);
  }

  /** A string that a pass maps to itself is its own result. */
  lemma {:induction false} ReplaceFixed(s: string, callback: string -> string, n: nat)
    requires Replace(s, callback) == s
    ensures ResolveN(s, callback, n) == s
    decreases n
  {
    if n > 0 && HasVar(s) {
      ReplaceFixed(s, callback, n - 1);
    }
  }
}
